/** The group entity's "all" flag, read from and written back to JSON. */
module GroupComponent {
  import opened Wrappers
  import opened Text

  /**
   * `isAllGroupTransform`'s reading: the entity ID names an "all" group when
   * "group.all_" occurs anywhere in it. The ID is force-unwrapped, so a
   * missing one is excluded.
   */
  function IsAllGroupFromJSON(value: Option<string>): (r: Option<bool>)
    requires value.Some?
    ensures r.Some?
    ensures r.value <==> exists i: nat :: OccursAt(value.value, "group.all_", i)
  {
    Some(Contains(value.value, "group.all_"))
  }

  /** `isAllGroupTransform`'s writing: the flag as "true" or "false", and nothing for no flag. */
  function IsAllGroupToJSON(value: Option<bool>): (r: Option<string>)
    ensures value == Some(true) <==> r == Some("true")
    ensures value == Some(false) <==> r == Some("false")
    ensures value.None? <==> r.None?
  {
    if value.Some? then Some(BoolText(value.value)) else None
  }

  /** A written flag reads back as the same flag. */
  lemma IsAllGroupWriteReadsBack(b: bool)
    ensures IsAllGroupToJSON(Some(b)).Some?
    ensures ParseBool(IsAllGroupToJSON(Some(b)).value) == Some(b)
  {
    BoolTextRoundTrip(b);
  }

  /** The prefix "group.all_" marks a group as an "all" group, and so does any later occurrence. */
  lemma AllGroupAnywhere(prefix: string, rest: string)
    ensures IsAllGroupFromJSON(Some(prefix + "group.all_" + rest)) == Some(true)
  {
    var s := prefix + "group.all_" + rest;
    assert OccursAt(s, "group.all_", |prefix|) by {
      assert s[|prefix|..|prefix| + |"group.all_"|] == "group.all_";
    }
  }
}
