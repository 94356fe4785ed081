/**
 * `AZResourceGroup` (azureclient/rg.py): one Azure resource group, named at
 * construction, that can be created or updated and deleted.
 *
 * The management service is not modelled; what it answers is passed in:
 * whether the group exists, what `create_or_update` returned, and, for a
 * delete, whether the long-running operation reports itself done after a
 * given number of waits.
 */
module ResourceGroup {
  import opened Wrappers

  /** The exceptions the client raises itself. */
  datatype Error =
    | ResourceNotFound   // ResourceNotFoundError, raised after a falsy create_or_update reply
    | OperationTimeout   // ServiceResponseTimeoutError("DELETE operation timeout")

  /** A resource group as the service describes it. */
  datatype Group = Group(name: string, location: string, tags: map<string, string>)

  /** What `create_or_update` reports having done. */
  datatype Change = Created | Updated

  /** A value of the request's parameter dictionary. */
  datatype Param = Location(location: string) | Tags(tags: map<string, string>)

  /** A negative attempt budget allows no wait at all. */
  function AttemptBound(waitAttempts: int): nat
  {
    if waitAttempts < 0 then 0 else waitAttempts
  }

  /**
   * The parameters `create_or_update` sends: always the location, and the
   * tags only when there are any (an empty dict is falsy).
   */
  function RequestParams(location: string, tags: map<string, string>): (p: map<string, Param>)
    ensures "location" in p && p["location"] == Location(location)
    ensures "tags" in p <==> |tags| > 0
    ensures forall key :: key in p ==> key == "location" || key == "tags"
  {
    if |tags| > 0 then map["location" := Location(location), "tags" := Tags(tags)]
    else map["location" := Location(location)]
  }

  /** The client for one resource group of one subscription. */
  class AzResourceGroup {
    const subscriptionId: string
    const name: string
    /** How many waits a delete may perform before it gives up (`WAIT_ATTEMPTS`). */
    const waitAttempts: int

    constructor (subscriptionId: string, name: string, waitAttempts: int)
      ensures this.subscriptionId == subscriptionId && this.name == name
      ensures this.waitAttempts == waitAttempts
    {
      this.subscriptionId := subscriptionId;
      this.name := name;
      this.waitAttempts := waitAttempts;
    }

    /**
     * `create_or_update`. `existedBefore` is what `exists()` answered first,
     * `reply` what the service returned for the request, and `existsAfter`
     * what `check_existence` answers when that reply is empty.
     */
    method CreateOrUpdate(location: string, tags: map<string, string>, existedBefore: bool,
                          reply: Option<Group>, existsAfter: bool)
      returns (change: Change, params: map<string, Param>, r: Result<Option<Group>, Error>)
      ensures change == Updated <==> existedBefore
      ensures params == RequestParams(location, tags)
      ensures reply.Some? ==> r == Success(reply)
      ensures reply.None? && existsAfter ==> r == Failure(ResourceNotFound)
      ensures reply.None? && !existsAfter ==> r == Success(None)
    {
      change := if existedBefore then Updated else Created;
      params := map["location" := Location(location)];
      if |tags| > 0 {
        params := params["tags" := Tags(tags)];
      }
      if reply.Some? {
        return change, params, Success(reply);
      }
      if existsAfter {
        r := Failure(ResourceNotFound);
      } else {
        r := Success(None);
      }
    }

    /**
     * `delete`. `present` is what `exists()` answered; `done(n)` is what the
     * operation's `done()` answers after `n` waits. `issued` says whether
     * `begin_delete` was called, and `progress` lists the attempt counts
     * reported after each wait.
     */
    method Delete(present: bool, done: nat -> bool) returns (issued: bool, progress: seq<nat>, r: Outcome<Error>)
      ensures issued == present
      ensures !present ==> progress == [] && r == Pass
      // the counter starts at 0, goes up by exactly one per wait and stays within the budget
      ensures |progress| <= AttemptBound(waitAttempts)
      ensures forall i :: 0 <= i < |progress| ==> progress[i] == i + 1
      // a wait happens only while the operation is not done, and the polling
      // stops as soon as it is done or the budget is spent
      ensures forall k :: 0 <= k < |progress| ==> !done(k)
      ensures present ==> done(|progress|) || |progress| == AttemptBound(waitAttempts)
      ensures r == Fail(OperationTimeout) <==> present && !done(|progress|)
      ensures r == Pass || r == Fail(OperationTimeout)
    {
      if !present {
        return false, [], Pass;
      }
      issued := true;
      var attemptCount: nat := 0;
      progress := [];
      while !done(attemptCount)
        invariant attemptCount == |progress| <= AttemptBound(waitAttempts)
        invariant forall i :: 0 <= i < |progress| ==> progress[i] == i + 1
        invariant forall k :: 0 <= k < attemptCount ==> !done(k)
        decreases AttemptBound(waitAttempts) - attemptCount
      {
        if attemptCount < waitAttempts {
          attemptCount := attemptCount + 1;
          progress := progress + [attemptCount];
        } else {
          break;
        }
      }
      if !done(attemptCount) {
        r := Fail(OperationTimeout);
      } else {
        r := Pass;
      }
    }
  }
}
