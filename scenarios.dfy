/** Worked examples of the board's matching, stated as lemmas. */
module Scenarios {
  import opened Case
  import opened Filtering
  import opened Skills
  import opened Matching

  /** An offer of "Guitarra" and a request of "guitarra" match despite the
      capital; the match carries the seeker's spelling. */
  lemma GuitarraExample()
    ensures GetMatches([Skill("Guitarra", "Ana", Offer), Skill("guitarra", "Luis", Seek)]) ==
            [Match("guitarra", "Luis", "Ana")]
  {
    var ana := Skill("Guitarra", "Ana", Offer);
    var luis := Skill("guitarra", "Luis", Seek);
    assert Lower("Guitarra") == "guitarra";
    assert Lower("guitarra") == "guitarra";
    assert [ana, luis] == [ana] + [luis];
    FilterAppend([ana], [luis], KindIs(Seek));
    FilterAppend([ana], [luis], KindIs(Offer));
    FilterSingle(ana, KindIs(Seek));
    FilterSingle(luis, KindIs(Seek));
    FilterSingle(ana, KindIs(Offer));
    FilterSingle(luis, KindIs(Offer));
    assert Requests([ana, luis]) == [luis];
    assert Offers([ana, luis]) == [ana];
    FilterSingle(ana, NameIs(Lower(luis.name)));
    assert MatchesFor(luis, [ana]) == [Pairing(luis, ana)];
    assert Join([luis], [ana]) == MatchesFor(luis, [ana]) + Join([], [ana]);
  }

  /** Two offers and one request of "Yoga" give two matches, in the order
      the offers were posted. */
  lemma YogaExample()
    ensures GetMatches([Skill("Yoga", "Ana", Offer), Skill("Yoga", "Beto", Offer),
                        Skill("Yoga", "Carla", Seek)]) ==
            [Match("Yoga", "Carla", "Ana"), Match("Yoga", "Carla", "Beto")]
  {
    var ana := Skill("Yoga", "Ana", Offer);
    var beto := Skill("Yoga", "Beto", Offer);
    var carla := Skill("Yoga", "Carla", Seek);
    var key := Lower("Yoga");
    assert [ana, beto, carla] == [ana, beto] + [carla];
    assert [ana, beto] == [ana] + [beto];
    FilterAppend([ana, beto], [carla], KindIs(Seek));
    FilterAppend([ana, beto], [carla], KindIs(Offer));
    FilterNone([ana, beto], KindIs(Seek));
    FilterAll([ana, beto], KindIs(Offer));
    FilterSingle(carla, KindIs(Seek));
    FilterSingle(carla, KindIs(Offer));
    assert Requests([ana, beto, carla]) == [carla];
    assert Offers([ana, beto, carla]) == [ana, beto];
    FilterAll([ana, beto], NameIs(key));
    assert MatchesFor(carla, [ana, beto]) == [Pairing(carla, ana), Pairing(carla, beto)];
    assert Join([carla], [ana, beto]) == MatchesFor(carla, [ana, beto]) + Join([], [ana, beto]);
  }
}
