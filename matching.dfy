/** The matches between the entries that seek a skill and the entries that
    offer it: a many-to-many join on the lower-cased skill name. */
module Matching {
  import opened Case
  import opened Filtering
  import opened Skills

  /** One match: the skill as the seeker spelled it, the seeker, the
      offerer. */
  datatype Match = Match(habilidad: string, busca: string, ofrece: string)

  /** Two entries name the same skill when their names are equal after
      lower-casing. */
  predicate SameSkill(a: Skill, b: Skill) {
    Lower(a.name) == Lower(b.name)
  }

  /** The test for entries of one kind. */
  function KindIs(kind: string): Skill -> bool {
    (s: Skill) => s.kind == kind
  }

  /** The test for entries whose lower-cased name is key. */
  function NameIs(key: string): Skill -> bool {
    (s: Skill) => Lower(s.name) == key
  }

  /** The test for matches whose lower-cased skill is key. */
  function SkillIs(key: string): Match -> bool {
    (m: Match) => Lower(m.habilidad) == key
  }

  /** The offers, in list order. */
  function Offers(skills: seq<Skill>): seq<Skill> {
    Filter(skills, KindIs(Offer))
  }

  /** The requests, in list order. */
  function Requests(skills: seq<Skill>): seq<Skill> {
    Filter(skills, KindIs(Seek))
  }

  /** The match record a request and an offer give. */
  function Pairing(req: Skill, off: Skill): Match {
    Match(req.name, req.user, off.user)
  }

  /** One request's group: a match for every offer of the same skill, in
      the offers' order. */
  function MatchesFor(req: Skill, offers: seq<Skill>): seq<Match> {
    var hits := Filter(offers, NameIs(Lower(req.name)));
    seq(|hits|, k requires 0 <= k < |hits| => Pairing(req, hits[k]))
  }

  /** The groups of all requests, one after another in the requests' order. */
  function Join(requests: seq<Skill>, offers: seq<Skill>): seq<Match> {
    if requests == [] then []
    else MatchesFor(requests[0], offers) + Join(requests[1..], offers)
  }

  /** All matches of the board. */
  function GetMatches(skills: seq<Skill>): seq<Match> {
    Join(Requests(skills), Offers(skills))
  }

  /** m is the match that some request of requests and some offer of offers
      of the same skill give. */
  predicate Justified(m: Match, requests: seq<Skill>, offers: seq<Skill>) {
    exists i, j :: 0 <= i < |requests| && 0 <= j < |offers| &&
                   SameSkill(requests[i], offers[j]) && m == Pairing(requests[i], offers[j])
  }

  /** m is the match that some seeking entry and some offering entry of the
      same skill on the board give. */
  predicate OnBoard(m: Match, skills: seq<Skill>) {
    exists i, j :: 0 <= i < |skills| && 0 <= j < |skills| &&
                   skills[i].kind == Seek && skills[j].kind == Offer &&
                   SameSkill(skills[i], skills[j]) && m == Pairing(skills[i], skills[j])
  }

  /** The positions of the offers that name the same skill as req. */
  function Offerers(req: Skill, offers: seq<Skill>): set<int> {
    set j | 0 <= j < |offers| && SameSkill(req, offers[j])
  }

  /** For each request, the number of offers of its skill, summed. */
  function Demand(requests: seq<Skill>, offers: seq<Skill>): nat {
    if requests == [] then 0
    else |Offerers(requests[0], offers)| + Demand(requests[1..], offers)
  }

  /** Where the match of requests[i] with offers[j] sits in the join: after
      the groups of the earlier requests and, inside the group of
      requests[i], after the matches with the earlier offers. */
  function Slot(requests: seq<Skill>, offers: seq<Skill>, i: int, j: int): int
    requires 0 <= i < |requests| && 0 <= j <= |offers|
  {
    |Join(requests[..i], offers)| + |MatchesFor(requests[i], offers[..j])|
  }

  /** Where the match of seeker skills[i] with offerer skills[j] sits among
      the board's matches. */
  function MatchSlot(skills: seq<Skill>, i: int, j: int): int
    requires 0 <= i < |skills| && 0 <= j <= |skills|
  {
    |Join(Requests(skills[..i]), Offers(skills))| + |MatchesFor(skills[i], Offers(skills[..j]))|
  }

  // ---------------------------------------------------------------------
  // The join of a request list with an offer list

  /** The join of a concatenation of request lists joins each part. */
  lemma {:induction false} JoinAppend(a: seq<Skill>, b: seq<Skill>, offers: seq<Skill>)
    ensures Join(a + b, offers) == Join(a, offers) + Join(b, offers)
  {
    if a == [] {
      assert a + b == b;
    } else {
      assert (a + b)[0] == a[0];
      assert (a + b)[1..] == a[1..] + b;
      JoinAppend(a[1..], b, offers);
    }
  }

  /** Every match of one request's group pairs it with an offer of the same
      skill. */
  lemma MatchesForSound(req: Skill, offers: seq<Skill>)
    ensures forall k :: 0 <= k < |MatchesFor(req, offers)| ==>
              Justified(MatchesFor(req, offers)[k], [req], offers)
  {
    var hits := Filter(offers, NameIs(Lower(req.name)));
    forall k | 0 <= k < |MatchesFor(req, offers)|
      ensures Justified(MatchesFor(req, offers)[k], [req], offers)
    {
      FilterMember(offers, NameIs(Lower(req.name)), k);
      var j :| 0 <= j < |offers| && offers[j] == hits[k];
      assert [req][0] == req;
      assert SameSkill([req][0], offers[j]) && MatchesFor(req, offers)[k] == Pairing([req][0], offers[j]);
    }
  }

  /** Soundness: every match pairs some request with some offer whose names
      are equal after lower-casing, with the request's name and user and the
      offer's user. */
  lemma {:induction false} JoinSound(requests: seq<Skill>, offers: seq<Skill>)
    ensures forall k :: 0 <= k < |Join(requests, offers)| ==>
              Justified(Join(requests, offers)[k], requests, offers)
  {
    if requests != [] {
      var head := MatchesFor(requests[0], offers);
      var tail := Join(requests[1..], offers);
      MatchesForSound(requests[0], offers);
      JoinSound(requests[1..], offers);
      forall k | 0 <= k < |Join(requests, offers)|
        ensures Justified(Join(requests, offers)[k], requests, offers)
      {
        if k < |head| {
          assert Justified(head[k], [requests[0]], offers);
          var i, j :| 0 <= i < 1 && 0 <= j < |offers| &&
                      SameSkill([requests[0]][i], offers[j]) && head[k] == Pairing([requests[0]][i], offers[j]);
          assert Join(requests, offers)[k] == head[k];
          assert SameSkill(requests[0], offers[j]) && head[k] == Pairing(requests[0], offers[j]);
        } else {
          assert Justified(tail[k - |head|], requests[1..], offers);
          var i, j :| 0 <= i < |requests[1..]| && 0 <= j < |offers| &&
                      SameSkill(requests[1..][i], offers[j]) &&
                      tail[k - |head|] == Pairing(requests[1..][i], offers[j]);
          assert requests[1..][i] == requests[i + 1];
          assert Join(requests, offers)[k] == tail[k - |head|];
          assert SameSkill(requests[i + 1], offers[j]) &&
                 Join(requests, offers)[k] == Pairing(requests[i + 1], offers[j]);
        }
      }
    }
  }

  /** Completeness with position: a request and an offer of the same skill
      give a match, and it sits at Slot. */
  lemma JoinAt(requests: seq<Skill>, offers: seq<Skill>, i: int, j: int)
    requires 0 <= i < |requests| && 0 <= j < |offers|
    requires SameSkill(requests[i], offers[j])
    ensures Slot(requests, offers, i, j) < |Join(requests, offers)|
    ensures Join(requests, offers)[Slot(requests, offers, i, j)] == Pairing(requests[i], offers[j])
  {
    var req := requests[i];
    var rest := requests[i + 1..];
    assert requests == requests[..i] + ([req] + rest);
    JoinAppend(requests[..i], [req] + rest, offers);
    assert ([req] + rest)[1..] == rest;
    assert Join([req] + rest, offers) == MatchesFor(req, offers) + Join(rest, offers);
    FilterAt(offers, NameIs(Lower(req.name)), j);
  }

  /** Ordering: the matches are grouped by request in list order, and inside
      a group they follow the offers' order. */
  lemma JoinOrder(requests: seq<Skill>, offers: seq<Skill>, i1: int, j1: int, i2: int, j2: int)
    requires 0 <= i1 < |requests| && 0 <= j1 < |offers| && SameSkill(requests[i1], offers[j1])
    requires 0 <= i2 < |requests| && 0 <= j2 < |offers| && SameSkill(requests[i2], offers[j2])
    requires i1 < i2 || (i1 == i2 && j1 < j2)
    ensures Slot(requests, offers, i1, j1) < Slot(requests, offers, i2, j2)
  {
    var req := requests[i1];
    var key := Lower(req.name);
    if i1 < i2 {
      FilterAt(offers, NameIs(key), j1);
      var middle := requests[i1 + 1..i2];
      assert requests[..i2] == requests[..i1] + ([req] + middle);
      JoinAppend(requests[..i1], [req] + middle, offers);
      assert ([req] + middle)[1..] == middle;
      assert Join([req] + middle, offers) == MatchesFor(req, offers) + Join(middle, offers);
    } else {
      var before := offers[..j2];
      assert before[..j1] == offers[..j1];
      FilterAt(before, NameIs(key), j1);
    }
  }

  /** Counting: there are as many matches as, summed over the requests, offers
      of the request's skill; nothing is deduplicated. */
  lemma {:induction false} JoinCount(requests: seq<Skill>, offers: seq<Skill>)
    ensures |Join(requests, offers)| == Demand(requests, offers)
  {
    if requests != [] {
      var req := requests[0];
      JoinCount(requests[1..], offers);
      FilterCard(offers, NameIs(Lower(req.name)));
      assert Positions(offers, NameIs(Lower(req.name))) == Offerers(req, offers);
    }
  }

  /** A request's group holds only matches of the request's skill. */
  lemma GroupSkill(req: Skill, offers: seq<Skill>, key: string)
    ensures Filter(MatchesFor(req, offers), SkillIs(key)) ==
            if Lower(req.name) == key then MatchesFor(req, offers) else []
  {
    var group := MatchesFor(req, offers);
    assert forall k :: 0 <= k < |group| ==> group[k].habilidad == req.name;
    if Lower(req.name) == key {
      FilterAll(group, SkillIs(key));
    } else {
      FilterNone(group, SkillIs(key));
    }
  }

  /** How the first request of a list adds to the matches of one skill and
      to the seekers of that skill. */
  lemma PerSkillStep(requests: seq<Skill>, offers: seq<Skill>, key: string)
    requires requests != []
    ensures |Filter(Join(requests, offers), SkillIs(key))| ==
            (if Lower(requests[0].name) == key then |Filter(offers, NameIs(key))| else 0) +
            |Filter(Join(requests[1..], offers), SkillIs(key))|
    ensures |Filter(requests, NameIs(key))| ==
            (if Lower(requests[0].name) == key then 1 else 0) + |Filter(requests[1..], NameIs(key))|
  {
    var req := requests[0];
    var rest := requests[1..];
    var group := MatchesFor(req, offers);
    assert Join(requests, offers) == group + Join(rest, offers);
    FilterAppend(group, Join(rest, offers), SkillIs(key));
    GroupSkill(req, offers, key);
    assert requests == [req] + rest;
    FilterAppend([req], rest, NameIs(key));
    FilterSingle(req, NameIs(key));
  }

  /** N seekers and M offerers of one skill give N * M matches for it. */
  lemma {:induction false} JoinPerSkill(requests: seq<Skill>, offers: seq<Skill>, key: string)
    ensures |Filter(Join(requests, offers), SkillIs(key))| ==
            |Filter(requests, NameIs(key))| * |Filter(offers, NameIs(key))|
  {
    if requests != [] {
      var n := |Filter(requests[1..], NameIs(key))|;
      var m := |Filter(offers, NameIs(key))|;
      JoinPerSkill(requests[1..], offers, key);
      PerSkillStep(requests, offers, key);
      ProductStep(|Filter(Join(requests, offers), SkillIs(key))|, |Filter(requests, NameIs(key))|,
                  n, m, Lower(requests[0].name) == key);
    }
  }

  /** The arithmetic of JoinPerSkill's inductive step: one more seeker adds
      m matches to n * m. */
  lemma ProductStep(total: int, seekers: int, n: int, m: int, hit: bool)
    requires total == (if hit then m else 0) + n * m
    requires seekers == (if hit then 1 else 0) + n
    ensures total == seekers * m
  {
  }

  /** Without offers there is nothing to match. */
  lemma {:induction false} JoinNoOffers(requests: seq<Skill>)
    ensures Join(requests, []) == []
  {
    if requests != [] {
      JoinNoOffers(requests[1..]);
    }
  }

  /** A new offer extends one request's group at its end, by the request's
      match with it when they name the same skill. */
  lemma MatchesForSnoc(req: Skill, offers: seq<Skill>, x: Skill)
    ensures MatchesFor(req, offers + [x]) ==
            MatchesFor(req, offers) + (if SameSkill(req, x) then [Pairing(req, x)] else [])
  {
    FilterAppend(offers, [x], NameIs(Lower(req.name)));
    FilterSingle(x, NameIs(Lower(req.name)));
  }

  /** The group of requests[i] sits in the join right after the groups of
      the earlier requests. */
  lemma JoinGroup(requests: seq<Skill>, offers: seq<Skill>, i: int)
    requires 0 <= i < |requests|
    ensures |Join(requests[..i], offers)| + |MatchesFor(requests[i], offers)| <= |Join(requests, offers)|
    ensures Join(requests, offers)[|Join(requests[..i], offers)| ..
                                   |Join(requests[..i], offers)| + |MatchesFor(requests[i], offers)|] ==
            MatchesFor(requests[i], offers)
  {
    var req := requests[i];
    var rest := requests[i + 1..];
    assert requests == requests[..i] + ([req] + rest);
    JoinAppend(requests[..i], [req] + rest, offers);
    assert ([req] + rest)[1..] == rest;
    assert Join([req] + rest, offers) == MatchesFor(req, offers) + Join(rest, offers);
  }

  /** A new offer adds one match for every request of the same skill. */
  lemma {:induction false} JoinAddOffer(requests: seq<Skill>, offers: seq<Skill>, x: Skill)
    ensures |Join(requests, offers + [x])| ==
            |Join(requests, offers)| + |Filter(requests, NameIs(Lower(x.name)))|
  {
    if requests != [] {
      var req := requests[0];
      var rest := requests[1..];
      JoinAddOffer(rest, offers, x);
      MatchesForSnoc(req, offers, x);
      assert requests == [req] + rest;
      FilterAppend([req], rest, NameIs(Lower(x.name)));
      FilterSingle(req, NameIs(Lower(x.name)));
    }
  }

  /** After a new offer, the group of requests[i] is its old group followed
      by its match with the offer when they name the same skill; the group
      has moved back by one place per earlier request of the offer's
      skill. */
  lemma JoinAddOfferGroup(requests: seq<Skill>, offers: seq<Skill>, x: Skill, i: int)
    requires 0 <= i < |requests|
    ensures |Join(requests[..i], offers + [x])| ==
            |Join(requests[..i], offers)| + |Filter(requests[..i], NameIs(Lower(x.name)))|
    ensures |Join(requests[..i], offers + [x])| + |MatchesFor(requests[i], offers + [x])| <=
            |Join(requests, offers + [x])|
    ensures Join(requests, offers + [x])[|Join(requests[..i], offers + [x])| ..
                                          |Join(requests[..i], offers + [x])| + |MatchesFor(requests[i], offers + [x])|] ==
            MatchesFor(requests[i], offers) +
            (if SameSkill(requests[i], x) then [Pairing(requests[i], x)] else [])
  {
    JoinAddOffer(requests[..i], offers, x);
    JoinGroup(requests, offers + [x], i);
    MatchesForSnoc(requests[i], offers, x);
  }

  // ---------------------------------------------------------------------
  // The board's matches

  /** Soundness on the board: every match pairs a seeking entry with an
      offering entry of the same lower-cased name. */
  lemma MatchesSound(skills: seq<Skill>)
    ensures forall k :: 0 <= k < |GetMatches(skills)| ==> OnBoard(GetMatches(skills)[k], skills)
  {
    var requests := Requests(skills);
    var offers := Offers(skills);
    JoinSound(requests, offers);
    forall k | 0 <= k < |GetMatches(skills)|
      ensures OnBoard(GetMatches(skills)[k], skills)
    {
      var m := GetMatches(skills)[k];
      assert Justified(m, requests, offers);
      var i', j' :| 0 <= i' < |requests| && 0 <= j' < |offers| &&
                    SameSkill(requests[i'], offers[j']) && m == Pairing(requests[i'], offers[j']);
      FilterMember(skills, KindIs(Seek), i');
      FilterMember(skills, KindIs(Offer), j');
      var i :| 0 <= i < |skills| && skills[i] == requests[i'];
      var j :| 0 <= j < |skills| && skills[j] == offers[j'];
      assert skills[i].kind == Seek && skills[j].kind == Offer &&
             SameSkill(skills[i], skills[j]) && m == Pairing(skills[i], skills[j]);
    }
  }

  /** Completeness on the board: a seeking entry and an offering entry of the
      same lower-cased name give a match, at MatchSlot. */
  lemma MatchesAt(skills: seq<Skill>, i: int, j: int)
    requires 0 <= i < |skills| && skills[i].kind == Seek
    requires 0 <= j < |skills| && skills[j].kind == Offer
    requires SameSkill(skills[i], skills[j])
    ensures MatchSlot(skills, i, j) < |GetMatches(skills)|
    ensures GetMatches(skills)[MatchSlot(skills, i, j)] == Pairing(skills[i], skills[j])
  {
    var i' := RequestIndex(skills, i);
    var j' := OfferIndex(skills, j);
    JoinAt(Requests(skills), Offers(skills), i', j');
  }

  /** The position of seeker skills[i] among the requests, with the facts
      that tie the board's slot to the join's. */
  lemma RequestIndex(skills: seq<Skill>, i: int) returns (i': int)
    requires 0 <= i < |skills| && skills[i].kind == Seek
    ensures i' == |Requests(skills[..i])| && i' < |Requests(skills)|
    ensures Requests(skills)[i'] == skills[i]
    ensures Requests(skills)[..i'] == Requests(skills[..i])
  {
    i' := |Requests(skills[..i])|;
    FilterAt(skills, KindIs(Seek), i);
    FilterPrefix(skills, KindIs(Seek), i);
  }

  /** The position of offerer skills[j] among the offers, with the facts
      that tie the board's slot to the join's. */
  lemma OfferIndex(skills: seq<Skill>, j: int) returns (j': int)
    requires 0 <= j < |skills| && skills[j].kind == Offer
    ensures j' == |Offers(skills[..j])| && j' < |Offers(skills)|
    ensures Offers(skills)[j'] == skills[j]
    ensures Offers(skills)[..j'] == Offers(skills[..j])
  {
    j' := |Offers(skills[..j])|;
    FilterAt(skills, KindIs(Offer), j);
    FilterPrefix(skills, KindIs(Offer), j);
  }

  /** Ordering on the board: matches come grouped by seeker in list order,
      and inside a group in the offerers' list order. */
  lemma MatchesOrdered(skills: seq<Skill>, i1: int, j1: int, i2: int, j2: int)
    requires 0 <= i1 < |skills| && skills[i1].kind == Seek
    requires 0 <= j1 < |skills| && skills[j1].kind == Offer
    requires 0 <= i2 < |skills| && skills[i2].kind == Seek
    requires 0 <= j2 < |skills| && skills[j2].kind == Offer
    requires SameSkill(skills[i1], skills[j1]) && SameSkill(skills[i2], skills[j2])
    requires i1 < i2 || (i1 == i2 && j1 < j2)
    ensures MatchSlot(skills, i1, j1) < MatchSlot(skills, i2, j2)
  {
    var a1 := RequestIndex(skills, i1);
    var b1 := OfferIndex(skills, j1);
    var a2 := RequestIndex(skills, i2);
    var b2 := OfferIndex(skills, j2);
    if i1 < i2 {
      assert skills[..i2][..i1] == skills[..i1];
      FilterAt(skills[..i2], KindIs(Seek), i1);
    } else {
      assert skills[..j2][..j1] == skills[..j1];
      FilterAt(skills[..j2], KindIs(Offer), j1);
    }
    JoinOrder(Requests(skills), Offers(skills), a1, b1, a2, b2);
  }

  /** Entries of any kind other than Offer and Seek never affect the
      matches. */
  lemma MatchesIgnoreOtherKinds(a: seq<Skill>, x: Skill, b: seq<Skill>)
    requires x.kind != Offer && x.kind != Seek
    ensures GetMatches(a + [x] + b) == GetMatches(a + b)
  {
    FilterSingle(x, KindIs(Offer));
    FilterSingle(x, KindIs(Seek));
    FilterAppend(a + [x], b, KindIs(Offer));
    FilterAppend(a, [x], KindIs(Offer));
    FilterAppend(a, b, KindIs(Offer));
    FilterAppend(a + [x], b, KindIs(Seek));
    FilterAppend(a, [x], KindIs(Seek));
    FilterAppend(a, b, KindIs(Seek));
    assert Offers(a + [x] + b) == Offers(a + b);
    assert Requests(a + [x] + b) == Requests(a + b);
  }

  /** A board with no requests, or with no offers (the empty board among
      them), has no matches. */
  lemma NoMatchesWithoutBoth(skills: seq<Skill>)
    requires (forall i :: 0 <= i < |skills| ==> skills[i].kind != Seek) ||
             (forall i :: 0 <= i < |skills| ==> skills[i].kind != Offer)
    ensures GetMatches(skills) == []
  {
    if forall i :: 0 <= i < |skills| ==> skills[i].kind != Seek {
      FilterNone(skills, KindIs(Seek));
    } else {
      FilterNone(skills, KindIs(Offer));
      JoinNoOffers(Requests(skills));
    }
  }

  /** Adding a request appends its group at the end and changes no earlier
      match. */
  lemma AddRequestAppendsMatches(skills: seq<Skill>, x: Skill)
    requires x.kind == Seek
    ensures GetMatches(skills + [x]) == GetMatches(skills) + MatchesFor(x, Offers(skills))
  {
    FilterSingle(x, KindIs(Offer));
    FilterSingle(x, KindIs(Seek));
    FilterAppend(skills, [x], KindIs(Offer));
    FilterAppend(skills, [x], KindIs(Seek));
    assert Offers(skills + [x]) == Offers(skills);
    assert Requests(skills + [x]) == Requests(skills) + [x];
    JoinAppend(Requests(skills), [x], Offers(skills));
    assert Join([x], Offers(skills)) == MatchesFor(x, Offers(skills)) + Join([], Offers(skills));
  }

  /** Adding an offer leaves the requests as they were and appends the offer
      to the offers, so every request's group is extended as
      JoinAddOfferGroup states; in all, one match is added per request of
      the offer's skill. */
  lemma AddOfferAddsMatches(skills: seq<Skill>, x: Skill)
    requires x.kind == Offer
    ensures GetMatches(skills + [x]) == Join(Requests(skills), Offers(skills) + [x])
    ensures |GetMatches(skills + [x])| ==
            |GetMatches(skills)| + |Filter(Requests(skills), NameIs(Lower(x.name)))|
  {
    FilterSingle(x, KindIs(Offer));
    FilterSingle(x, KindIs(Seek));
    FilterAppend(skills, [x], KindIs(Offer));
    FilterAppend(skills, [x], KindIs(Seek));
    assert Offers(skills + [x]) == Offers(skills) + [x];
    assert Requests(skills + [x]) == Requests(skills);
    JoinAddOffer(Requests(skills), Offers(skills), x);
  }
}
