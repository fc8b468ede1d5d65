/**
 * TrackingService: counts, per group and per bank, the requests a group's
 * credentials were used for.  The group store is a remote service
 * (GroupCallService); here it is a class holding the stored groups and the
 * log of calls made to it, with the failures it raises as parameters.
 */
module Tracking {
  import opened Wrappers
  import opened Models

  /** Exception messages of TrackingService (its implementation is not part of this model). */
  const GROUP_NOT_FOUND_MESSAGE := "group not found"
  const BANK_NOT_FOUND_MESSAGE := "bank not found in stats"

  /** One call made to the group store. */
  datatype GroupCall = ReadAll | Update(id: string, group: Group)

  /** Every group with this id replaced by `group`; the others stay as they are. */
  function ReplaceById(groups: seq<Group>, id: string, group: Group): (r: seq<Group>)
    ensures |r| == |groups|
    ensures forall i :: 0 <= i < |groups| ==> r[i] == if groups[i].id == id then group else groups[i]
  {
    seq(|groups|, i requires 0 <= i < |groups| => if groups[i].id == id then group else groups[i])
  }

  class GroupCallService {
    var groups: seq<Group>
    var calls: seq<GroupCall>
    const readFailure: Option<Error>
    const updateFailure: Option<Error>

    constructor(groups: seq<Group>, readFailure: Option<Error>, updateFailure: Option<Error>)
      ensures this.groups == groups && calls == []
      ensures this.readFailure == readFailure && this.updateFailure == updateFailure
    {
      this.groups := groups;
      calls := [];
      this.readFailure := readFailure;
      this.updateFailure := updateFailure;
    }

    /** `getAllGroups()`: every stored group, in store order. */
    method GetAllGroups() returns (result: Result<seq<Group>, Error>)
      modifies this
      ensures calls == old(calls) + [ReadAll] && groups == old(groups)
      ensures result == if readFailure.Some? then Failure(readFailure.value) else Success(groups)
    {
      calls := calls + [ReadAll];
      if readFailure.Some? {
        return Failure(readFailure.value);
      }
      result := Success(groups);
    }

    /** `updateGroup(id, group)`: stores `group` under `id`. */
    method UpdateGroup(id: string, group: Group) returns (result: Result<Group, Error>)
      modifies this
      ensures calls == old(calls) + [Update(id, group)]
      ensures updateFailure.Some? ==> groups == old(groups) && result == Failure(updateFailure.value)
      ensures updateFailure.None? ==> groups == ReplaceById(old(groups), id, group) && result == Success(group)
    {
      calls := calls + [Update(id, group)];
      if updateFailure.Some? {
        return Failure(updateFailure.value);
      }
      groups := ReplaceById(groups, id, group);
      result := Success(group);
    }
  }

  /** A group is addressed by both its username and its password. */
  predicate Matches(g: Group, username: string, password: string) {
    g.username == username && g.password == password
  }

  /** The position of the first group with these credentials, if any. */
  function FirstMatch(groups: seq<Group>, username: string, password: string): (r: Option<nat>)
    ensures r.Some? ==> r.value < |groups| && Matches(groups[r.value], username, password)
    ensures r.Some? ==> forall j :: 0 <= j < r.value ==> !Matches(groups[j], username, password)
    ensures r.None? <==> forall j :: 0 <= j < |groups| ==> !Matches(groups[j], username, password)
    decreases |groups|
  {
    if groups == [] then None
    else if Matches(groups[0], username, password) then Some(0)
    else match FirstMatch(groups[1..], username, password)
      case None => None
      case Some(i) => Some(i + 1)
  }

  /** The group with the counter for `bankName` raised by one. */
  function Raised(g: Group, bankName: string): (r: Group)
    requires bankName in g.stats
  {
    g.(stats := g.stats[bankName := Inc(g.stats[bankName])])
  }

  /** The raised group differs from the original in that one counter and nowhere else. */
  lemma RaisedChangesOnlyTheCounter(g: Group, bankName: string)
    requires bankName in g.stats
    ensures var r := Raised(g, bankName);
      && r.id == g.id && r.username == g.username && r.password == g.password
      && r.jmsQueue == g.jmsQueue && r.students == g.students && r.hasPassed == g.hasPassed
      && r.stats.Keys == g.stats.Keys
      && (forall k :: k in g.stats && k != bankName ==> r.stats[k] == g.stats[k])
      && r.stats[bankName] == Inc(g.stats[bankName])
  {
  }

  /**
   * What `trackRequest` writes, given the stored groups: the first group
   * with these credentials, raised for `bankName`; NotFound when no group has
   * them, IllegalState when that group keeps no counter for the bank.
   */
  function Tracked(groups: seq<Group>, username: string, password: string, bankName: string): (r: Result<Group, Error>)
    ensures r == Failure(NotFound(GROUP_NOT_FOUND_MESSAGE))
        <==> forall j :: 0 <= j < |groups| ==> !Matches(groups[j], username, password)
    ensures r.Success? ==>
      exists i :: 0 <= i < |groups| && Matches(groups[i], username, password)
                  && bankName in groups[i].stats && r.value == Raised(groups[i], bankName)
  {
    match FirstMatch(groups, username, password)
    case None => Failure(NotFound(GROUP_NOT_FOUND_MESSAGE))
    case Some(i) =>
      var g := groups[i];
      if bankName in g.stats then Success(Raised(g, bankName))
      else Failure(IllegalState(BANK_NOT_FOUND_MESSAGE))
  }

  /** With no groups stored, every request is rejected as NotFound. */
  lemma NoGroupsNoTracking(username: string, password: string, bankName: string)
    ensures Tracked([], username, password, bankName) == Failure(NotFound(GROUP_NOT_FOUND_MESSAGE))
  {
  }

  /**
   * Only a group whose username and password both match is written: a
   * right username with a wrong password is rejected like an unknown one.
   */
  lemma BothCredentialsNeeded(groups: seq<Group>, username: string, password: string, bankName: string)
    requires forall j :: 0 <= j < |groups| ==> groups[j].username != username || groups[j].password != password
    ensures Tracked(groups, username, password, bankName) == Failure(NotFound(GROUP_NOT_FOUND_MESSAGE))
  {
  }

  /** The written group keeps the matched group's id and credentials. */
  lemma TrackedWritesMatchedGroup(groups: seq<Group>, username: string, password: string, bankName: string)
    requires Tracked(groups, username, password, bankName).Success?
    ensures var i := FirstMatch(groups, username, password).value;
      var w := Tracked(groups, username, password, bankName).value;
      && w.id == groups[i].id && w.username == username && w.password == password
      && w == Raised(groups[i], bankName)
  {
  }

  /** A matched group without a counter for the bank is an IllegalState, and nothing is written. */
  lemma MissingCounterIsIllegalState(groups: seq<Group>, username: string, password: string, bankName: string, i: nat)
    requires i < |groups| && Matches(groups[i], username, password) && bankName !in groups[i].stats
    requires forall j :: 0 <= j < i ==> !Matches(groups[j], username, password)
    ensures Tracked(groups, username, password, bankName) == Failure(IllegalState(BANK_NOT_FOUND_MESSAGE))
  {
    assert FirstMatch(groups, username, password).Some?;
  }

  /** A first match that keeps a counter for the bank is written back with that counter raised. */
  lemma CounterPresentIsRaised(groups: seq<Group>, username: string, password: string, bankName: string, i: nat)
    requires i < |groups| && Matches(groups[i], username, password) && bankName in groups[i].stats
    requires forall j :: 0 <= j < i ==> !Matches(groups[j], username, password)
    ensures Tracked(groups, username, password, bankName) == Success(Raised(groups[i], bankName))
  {
    assert FirstMatch(groups, username, password).Some?;
  }

  class TrackingService {
    const groupCall: GroupCallService
    const bankName: string

    constructor(groupCall: GroupCallService, bankName: string)
      ensures this.groupCall == groupCall && this.bankName == bankName
    {
      this.groupCall := groupCall;
      this.bankName := bankName;
    }

    /**
     * `trackRequest(username, password)`: one read of all groups, then at most
     * one update, of the matched group with its counter raised.  Any failure
     * before the update leaves the store untouched; a failing update is passed on.
     */
    method TrackRequest(username: string, password: string) returns (failure: Option<Error>)
      modifies groupCall
      ensures groupCall.readFailure.Some? ==>
        groupCall.calls == old(groupCall.calls) + [ReadAll]
        && groupCall.groups == old(groupCall.groups) && failure == groupCall.readFailure
      ensures groupCall.readFailure.None? ==>
        match Tracked(old(groupCall.groups), username, password, bankName)
        case Failure(e) =>
          groupCall.calls == old(groupCall.calls) + [ReadAll]
          && groupCall.groups == old(groupCall.groups) && failure == Some(e)
        case Success(g) =>
          groupCall.calls == old(groupCall.calls) + [ReadAll, Update(g.id, g)]
          && failure == groupCall.updateFailure
          && groupCall.groups == if groupCall.updateFailure.Some? then old(groupCall.groups)
                                 else ReplaceById(old(groupCall.groups), g.id, g)
    {
      var all := groupCall.GetAllGroups();
      if all.Failure? {
        return Some(all.error);
      }
      var tracked := Tracked(all.value, username, password, bankName);
      if tracked.Failure? {
        return Some(tracked.error);
      }
      var group := tracked.value;
      var written := groupCall.UpdateGroup(group.id, group);
      if written.Failure? {
        return Some(written.error);
      }
      failure := None;
    }
  }
}
