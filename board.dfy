/** The state of the board component: the skill list, the draft the form
    edits, the filter value, and the stored copy of the list that the save
    effect keeps in the browser's storage slot "skills". */
module Board {
  import opened Skills
  import opened Matching

  datatype Option<T> = None | Some(value: T)

  /** The draft may be added when both its name and its user are non-empty
      strings (JavaScript truthiness; no trimming, so "  " passes). */
  predicate Addable(draft: Skill) {
    draft.name != "" && draft.user != ""
  }

  class TruekaApp {
    var skills: seq<Skill>
    var newSkill: Skill
    var filterType: string
    /** The list as last written to the storage slot. */
    var stored: seq<Skill>

    /** The save effect has caught up: the stored copy is the list. */
    predicate Valid()
      reads this
    {
      stored == skills
    }

    /** First render and the load effect. snapshot is the parsed content of
        the storage slot, None when the slot is empty. */
    constructor Mount(snapshot: Option<seq<Skill>>)
      ensures Valid()
      ensures skills == (if snapshot.Some? then snapshot.value else [])
      ensures newSkill == EmptyDraft && filterType == All
    {
      skills := if snapshot.Some? then snapshot.value else [];
      newSkill := EmptyDraft;
      filterType := All;
      stored := skills;
    }

    /** The entries the list shows under the current filter. */
    function Visible(): seq<Skill>
      reads this
    {
      FilterView(skills, filterType)
    }

    /** The matches the board shows. */
    function CurrentMatches(): seq<Match>
      reads this
    {
      GetMatches(skills)
    }

    /** The add button: append the draft and reset it when it is addable,
        otherwise change nothing; the save effect then mirrors the list.
        An add extends the visible list by the draft when the filter shows
        it; a request appends its group to the matches, an offer joins the
        existing requests, and an entry of any other type leaves the
        matches as they were. */
    method AddSkill()
      requires Valid()
      modifies this
      ensures Valid()
      ensures Addable(old(newSkill)) ==>
                skills == old(skills) + [old(newSkill)] && newSkill == EmptyDraft
      ensures !Addable(old(newSkill)) ==>
                skills == old(skills) && newSkill == old(newSkill)
      ensures filterType == old(filterType)
      ensures Addable(old(newSkill)) ==>
                Visible() == old(Visible()) +
                             (if Shown(filterType)(old(newSkill)) then [old(newSkill)] else [])
      ensures Addable(old(newSkill)) && old(newSkill).kind == Seek ==>
                CurrentMatches() == old(CurrentMatches()) + MatchesFor(old(newSkill), Offers(old(skills)))
      ensures Addable(old(newSkill)) && old(newSkill).kind == Offer ==>
                CurrentMatches() == Join(Requests(old(skills)), Offers(old(skills)) + [old(newSkill)])
      ensures Addable(old(newSkill)) && old(newSkill).kind != Seek && old(newSkill).kind != Offer ==>
                CurrentMatches() == old(CurrentMatches())
    {
      if Addable(newSkill) {
        var draft := newSkill;
        FilterViewAppend(skills, draft, filterType);
        if draft.kind == Seek {
          AddRequestAppendsMatches(skills, draft);
        } else if draft.kind == Offer {
          AddOfferAddsMatches(skills, draft);
        } else {
          MatchesIgnoreOtherKinds(skills, draft, []);
          assert skills + [draft] + [] == skills + [draft] && skills + [] == skills;
        }
        skills := skills + [draft];
        newSkill := EmptyDraft;
        stored := skills;
      }
    }

    /** The name field of the form. */
    method SetName(name: string)
      modifies this`newSkill
      ensures newSkill == old(newSkill).(name := name)
    {
      newSkill := newSkill.(name := name);
    }

    /** The user field of the form. */
    method SetUser(user: string)
      modifies this`newSkill
      ensures newSkill == old(newSkill).(user := user)
    {
      newSkill := newSkill.(user := user);
    }

    /** The kind selector of the form. */
    method SetKind(kind: string)
      modifies this`newSkill
      ensures newSkill == old(newSkill).(kind := kind)
    {
      newSkill := newSkill.(kind := kind);
    }

    /** The filter selector. */
    method SetFilterType(value: string)
      modifies this`filterType
      ensures filterType == value
    {
      filterType := value;
    }
  }
}
