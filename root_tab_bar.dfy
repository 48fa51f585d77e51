/**
 * The root tab bar: which entity states become group tabs, the icon each
 * tab shows, the tab list with the Settings tab last, and the subtitle
 * announced when an entity changes state.
 */
module RootTabBar {
  import opened Wrappers

  /**
   * An entity state of the bootstrap, reduced to what the tab bar reads.
   * `hidden`, `view` and `auto` are `None` when the attribute does not
   * exist and its boolean reading otherwise; `members` is the string
   * reading of the `entity_id` attribute list (empty when it is not a list).
   */
  datatype EntityState = EntityState(
    entityId: string,
    friendlyName: string,
    hidden: Option<bool>,
    view: Option<bool>,
    auto: Option<bool>,
    members: seq<string>,
    icon: Option<string>,
    mobileIcon: Option<string>)

  /** All members are of domain "group" (and there is at least one). */
  predicate OnlyGroupMembers(members: seq<string>, entityType: string -> string) {
    |members| > 0 && forall i :: 0 <= i < |members| ==> entityType(members[i]) == "group"
  }

  /**
   * Whether an entity becomes a group tab: it is a group, it is not marked
   * hidden = false, view = false or auto = true, and its members are not
   * all groups themselves.
   */
  predicate IsTabGroup(state: EntityState, entityType: string -> string) {
    && entityType(state.entityId) == "group"
    && state.hidden != Some(false)
    && state.view != Some(false)
    && state.auto != Some(true)
    && !OnlyGroupMembers(state.members, entityType)
  }

  /** The distinct domains of a list of domains is exactly {"group"} when the list is non-empty and all "group". */
  lemma UniqueDomainIsGroup(domains: seq<string>)
    ensures (var unique := set d | d in domains; |unique| == 1 && "group" in unique) <==>
      (|domains| > 0 && forall i :: 0 <= i < |domains| ==> domains[i] == "group")
  {
    var unique := set d | d in domains;
    if |unique| == 1 && "group" in unique {
      forall i | 0 <= i < |domains| ensures domains[i] == "group" {
        if domains[i] != "group" {
          assert {"group", domains[i]} <= unique;
          assert |{"group", domains[i]}| == 2;
          SubsetCardinality({"group", domains[i]}, unique);
          assert false;
        }
      }
    }
    if |domains| > 0 && forall i :: 0 <= i < |domains| ==> domains[i] == "group" {
      assert domains[0] in unique;
      assert unique == {"group"};
    }
  }

  /** A subset is no larger than its superset. */
  lemma {:induction false} SubsetCardinality(a: set<string>, b: set<string>)
    requires a <= b
    ensures |a| <= |b|
    decreases |b|
  {
    if a != {} {
      var x :| x in a;
      SubsetCardinality(a - {x}, b - {x});
    }
  }

  /**
   * The filter closure of `viewWillAppear`: `entityType` is the domain
   * reading of an entity ID, which is not part of this model.
   */
  method ShouldShowGroup(state: EntityState, entityType: string -> string) returns (shouldReturn: bool)
    ensures shouldReturn == IsTabGroup(state, entityType)
  {
    shouldReturn := true;
    if entityType(state.entityId) != "group" {
      return false;
    }
    if state.hidden.Some? && state.hidden.value == false {
      shouldReturn := false;
    }
    if state.view.Some? && state.view.value == false {
      shouldReturn := false;
    }
    if state.auto.Some? && state.auto.value {
      shouldReturn := false;
    }
    var groupCheck: seq<string> := [];
    var i := 0;
    while i < |state.members|
      invariant 0 <= i <= |state.members|
      invariant |groupCheck| == i
      invariant forall j :: 0 <= j < i ==> groupCheck[j] == entityType(state.members[j])
    {
      groupCheck := groupCheck + [entityType(state.members[i])];
      i := i + 1;
    }
    var uniqueCheck := set d | d in groupCheck;
    UniqueDomainIsGroup(groupCheck);
    if |uniqueCheck| == 1 && "group" in uniqueCheck {
      shouldReturn := false;
    }
  }

  /** The states the filter keeps, in their bootstrap order. */
  function TabGroups(states: seq<EntityState>, entityType: string -> string): (groups: seq<EntityState>)
    ensures |groups| <= |states|
    ensures forall g :: g in groups <==> g in states && IsTabGroup(g, entityType)
  {
    if states == [] then []
    else
      var rest := TabGroups(states[1..], entityType);
      if IsTabGroup(states[0], entityType) then [states[0]] + rest else rest
  }

  /** A group entity's first member ID; an empty member list reads as "". */
  function FirstMember(state: EntityState): string {
    if state.members == [] then "" else state.members[0]
  }

  /** The tab icon: `mobile_icon` wins over `icon`, which wins over the first member's domain icon. */
  function TabIcon(state: EntityState, entityType: string -> string, domainIcon: string -> string): (icon: string)
    ensures state.mobileIcon.Some? ==> icon == state.mobileIcon.value
    ensures state.mobileIcon.None? && state.icon.Some? ==> icon == state.icon.value
    ensures state.mobileIcon.None? && state.icon.None? ==> icon == domainIcon(entityType(FirstMember(state)))
  {
    if state.mobileIcon.Some? then state.mobileIcon.value
    else if state.icon.Some? then state.icon.value
    else domainIcon(entityType(FirstMember(state)))
  }

  /** The bootstrap states a group tab receives: those whose ID is one of the group's members. */
  function MemberStates(states: seq<EntityState>, members: seq<string>): (r: seq<EntityState>)
    ensures |r| <= |states|
    ensures forall s :: s in r <==> s in states && s.entityId in members
  {
    if states == [] then []
    else
      var rest := MemberStates(states[1..], members);
      if states[0].entityId in members then [states[0]] + rest else rest
  }

  /** A tab of the tab bar. */
  datatype Tab =
    | GroupTab(title: string, icon: string, tag: nat, entities: seq<EntityState>)
    | SettingsTab(title: string, icon: string, tag: nat)

  /** The Settings tab. */
  const Settings: Tab := SettingsTab("Settings", "mdi:settings", 1)

  /** The tab for the group at `index`. */
  function GroupTabFor(group: EntityState, index: nat, states: seq<EntityState>, entityType: string -> string,
    domainIcon: string -> string, capitalize: string -> string): (tab: Tab)
    ensures tab.GroupTab? && tab.tag == index && tab.title == capitalize(group.friendlyName)
    ensures tab.icon == TabIcon(group, entityType, domainIcon)
    ensures forall s :: s in tab.entities <==> s in states && s.entityId in group.members
  {
    GroupTab(capitalize(group.friendlyName), TabIcon(group, entityType, domainIcon), index,
      MemberStates(states, group.members))
  }

  /**
   * The tab list of `viewWillAppear`, built from the groups in the order
   * the sort left them; `capitalize` is the title capitalization and
   * `domainIcon` the icon of a domain, neither of which is part of this model.
   */
  method BuildTabs(allGroups: seq<EntityState>, states: seq<EntityState>, entityType: string -> string,
    domainIcon: string -> string, capitalize: string -> string) returns (tabViewControllers: seq<Tab>)
    ensures |tabViewControllers| == |allGroups| + 1
    ensures forall i :: 0 <= i < |allGroups| ==>
      tabViewControllers[i] == GroupTabFor(allGroups[i], i, states, entityType, domainIcon, capitalize)
    ensures tabViewControllers[|allGroups|] == Settings
  {
    tabViewControllers := [];
    var index := 0;
    while index < |allGroups|
      invariant 0 <= index <= |allGroups|
      invariant |tabViewControllers| == index
      invariant forall i :: 0 <= i < index ==>
        tabViewControllers[i] == GroupTabFor(allGroups[i], i, states, entityType, domainIcon, capitalize)
    {
      var group := allGroups[index];
      var title := capitalize(group.friendlyName);
      var sendingEntities := MemberStates(states, group.members);
      var groupIcon := domainIcon(entityType(FirstMember(group)));
      if group.icon.Some? {
        groupIcon := group.icon.value;
      }
      if group.mobileIcon.Some? {
        groupIcon := group.mobileIcon.value;
      }
      tabViewControllers := tabViewControllers + [GroupTab(title, groupIcon, index, sendingEntities)];
      index := index + 1;
    }
    tabViewControllers := tabViewControllers + [SettingsTab("Settings", "mdi:settings", 1)];
  }

  /** Only the last tab is Settings; every group tab comes before it. */
  lemma SettingsIsLast(allGroups: seq<EntityState>, states: seq<EntityState>, entityType: string -> string,
    domainIcon: string -> string, capitalize: string -> string, tabs: seq<Tab>)
    requires |tabs| == |allGroups| + 1
    requires forall i :: 0 <= i < |allGroups| ==>
      tabs[i] == GroupTabFor(allGroups[i], i, states, entityType, domainIcon, capitalize)
    requires tabs[|allGroups|] == Settings
    ensures forall i :: 0 <= i < |tabs| ==> (tabs[i].SettingsTab? <==> i == |tabs| - 1)
  {
    forall i | 0 <= i < |tabs| ensures tabs[i].SettingsTab? <==> i == |tabs| - 1 {
      if i < |allGroups| {
        assert tabs[i] == GroupTabFor(allGroups[i], i, states, entityType, domainIcon, capitalize);
      }
    }
  }

  /**
   * The subtitle of `StateChangedSSEEvent`: with a unit on both states it
   * reads "<new> <unit>. It was <old> <unit>", otherwise
   * "<name> is now <new>. It was <old>".
   */
  function Subtitle(friendlyName: string, newState: string, oldState: string,
    newUnit: Option<string>, oldUnit: Option<string>): (subtitle: string)
    ensures newUnit.Some? && oldUnit.Some? ==>
      var head := newState + " " + newUnit.value + ". It was ";
      |head| <= |subtitle| && subtitle[..|head|] == head && subtitle[|head|..] == oldState + " " + oldUnit.value
    ensures newUnit.None? || oldUnit.None? ==>
      var head := friendlyName + " is now " + newState + ". It was ";
      |head| <= |subtitle| && subtitle[..|head|] == head && subtitle[|head|..] == oldState
  {
    var subtitleString := friendlyName + " is now " + newState + ". It was " + oldState;
    if newUnit.Some? && oldUnit.Some? then
      newState + " " + newUnit.value + ". It was " + oldState + " " + oldUnit.value
    else subtitleString
  }

  /** With units on both states the friendly name does not appear: any two names give the same subtitle. */
  lemma UnitSubtitleDropsName(a: string, b: string, newState: string, oldState: string, newUnit: string, oldUnit: string)
    ensures Subtitle(a, newState, oldState, Some(newUnit), Some(oldUnit))
         == Subtitle(b, newState, oldState, Some(newUnit), Some(oldUnit))
  {
  }

  /** A unit on only one of the two states is ignored. */
  lemma OneUnitIgnored(friendlyName: string, newState: string, oldState: string, unit: string)
    ensures Subtitle(friendlyName, newState, oldState, Some(unit), None) == Subtitle(friendlyName, newState, oldState, None, None)
    ensures Subtitle(friendlyName, newState, oldState, None, Some(unit)) == Subtitle(friendlyName, newState, oldState, None, None)
  {
  }
}
