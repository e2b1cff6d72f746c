/** How an envelope headcount becomes the headcount published, and replayed, for one week. */
module Publication {
  import opened Common
  import opened Scheduler

  /**
   * Outside the role's windows, or where no synthetic slot may exist and nobody is
   * named, only the named people count; otherwise the envelope tops them up.
   */
  function Published(rt: ResourceType, envelopeHeadcount: nat, week: int): (r: nat)
    ensures NamedCapacity(rt.namedResources, week) <= r
  {
    var named := NamedCapacity(rt.namedResources, week);
    if !IsWithinRoleWindow(rt, week) || (!CanMaterializeSyntheticCapacity(rt, envelopeHeadcount) && named == 0)
    then named
    else Max(envelopeHeadcount, named)
  }

  /** Publishing what was published changes nothing, in every combination of window, naming and growth. */
  lemma PublishedIdempotent(rt: ResourceType, envelopeHeadcount: nat, week: int)
    ensures Published(rt, Published(rt, envelopeHeadcount, week), week) == Published(rt, envelopeHeadcount, week)
  {
  }

  /** A headcount is what the replay will supply exactly under this condition. */
  lemma PublishedExactly(rt: ResourceType, headcount: nat, week: int)
    ensures Published(rt, headcount, week) == headcount
       <==> var named := NamedCapacity(rt.namedResources, week);
            || headcount == named
            || (headcount > named && IsWithinRoleWindow(rt, week)
                && (named > 0 || CanMaterializeSyntheticCapacity(rt, headcount)))
  {
  }

  /**
   * One quantum less can lose the whole headcount: a named-only role whose envelope had
   * grown past its count supplies nothing at its count once nobody is present.
   */
  lemma ReducedNamedOnlyRoleVanishes()
    ensures exists rt: ResourceType, headcount: nat, week: int ::
              && Published(rt, headcount + 25, week) == headcount + 25
              && headcount > 0
              && Published(rt, headcount, week) == 0
  {
    var person := NamedResource(Some(0), Some(0), Effort, 100, None, None, []);
    var rt := ResourceType("", 100, [person], None);
    assert Contribution(person, 5) == 0;
    assert NamedCapacity([person], 5) == NamedCapacity([], 5) + 0 by {
      assert [person][..0] == [];
    }
    assert Published(rt, 125, 5) == 125 && Published(rt, 100, 5) == 0;
    assert Published(rt, 100 + 25, 5) == 100 + 25;
  }
}
