/** The skill records of the board and the filtered view of them. */
module Skills {
  import opened Filtering

  /** The kind of an entry that offers its skill. */
  const Offer: string := "ofrece"
  /** The kind of an entry that seeks its skill. */
  const Seek: string := "busca"
  /** The filter value that shows every entry. */
  const All: string := "todos"

  /** One posted skill. The source calls the third field `type`; it is a
      free string, because entries loaded from storage are not checked to
      be Offer or Seek. */
  datatype Skill = Skill(name: string, user: string, kind: string)

  /** The draft the form starts from and is reset to after an add. */
  const EmptyDraft: Skill := Skill("", "", Offer)

  /** The filter's test for one entry: the sentinel All shows everything,
      any other value shows the entries of exactly that kind. */
  function Shown(filterType: string): Skill -> bool {
    (skill: Skill) => if filterType == All then true else skill.kind == filterType
  }

  /** The entries shown under the filter value filterType. */
  function FilterView(skills: seq<Skill>, filterType: string): seq<Skill> {
    Filter(skills, Shown(filterType))
  }

  /** The sentinel All shows the whole list, same entries, same order. */
  lemma FilterViewAll(skills: seq<Skill>)
    ensures FilterView(skills, All) == skills
  {
    FilterAll(skills, Shown(All));
  }

  /** Any other filter value shows exactly the entries of that kind, as an
      order-preserving subsequence of the list, each with its multiplicity. */
  lemma FilterViewOfKind(skills: seq<Skill>, kind: string)
    requires kind != All
    ensures Subsequence(FilterView(skills, kind), skills)
    ensures |FilterView(skills, kind)| <= |skills|
    ensures forall k :: 0 <= k < |FilterView(skills, kind)| ==> FilterView(skills, kind)[k].kind == kind
    ensures forall x :: multiset(FilterView(skills, kind))[x] ==
                        if x.kind == kind then multiset(skills)[x] else 0
    ensures |FilterView(skills, kind)| == |set j | 0 <= j < |skills| && skills[j].kind == kind|
  {
    var r := FilterView(skills, kind);
    FilterSpec(skills, Shown(kind));
    forall k | 0 <= k < |r|
      ensures r[k].kind == kind
    {
      assert r[k] in multiset(r);
    }
    FilterCard(skills, Shown(kind));
    assert Positions(skills, Shown(kind)) == set j | 0 <= j < |skills| && skills[j].kind == kind;
  }

  /** Adding an entry extends the view by that entry when the filter shows
      it, and leaves the earlier part of the view alone. */
  lemma FilterViewAppend(skills: seq<Skill>, x: Skill, filterType: string)
    ensures FilterView(skills + [x], filterType) ==
            FilterView(skills, filterType) + (if Shown(filterType)(x) then [x] else [])
  {
    FilterAppend(skills, [x], Shown(filterType));
    assert [x][1..] == [];
  }
}
