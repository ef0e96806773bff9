/**
 * The creator resolver: classifying the block-explorer's contract-creation
 * answer, and locating the creator among the top holders.
 */
module Creator {
  import opened Optional
  import opened Text
  import opened Token

  /**
   * The block-explorer's answer as the resolver sees it: either the request
   * failed (a network error, a non-ok status or a body that is not JSON),
   * or a payload with a status and, possibly, a list of creator addresses.
   */
  datatype CreationLookup =
    | LookupFailed
    | CreationPayload(status: string, result: Option<seq<string>>)

  /**
   * `getCreatorAddress`: the first listed creator when the status is "1" and
   * the list is present and non-empty, and "No Data" otherwise.
   */
  function CreatorAddress(lookup: CreationLookup): (creator: string)
    ensures lookup.LookupFailed? ==> creator == NoData
    ensures lookup.CreationPayload? ==>
              if lookup.status == "1" && lookup.result.Some? && |lookup.result.value| > 0
              then creator == lookup.result.value[0]
              else creator == NoData
  {
    match lookup
    case LookupFailed => NoData
    case CreationPayload(status, result) =>
      if status != "1" || result.None? || |result.value| == 0 then NoData
      else result.value[0]
  }

  /** A creator value that stands for "no creator known". */
  predicate IsSentinel(creator: string) {
    creator == "" || creator == ErrorText || creator == NoData
  }

  /**
   * `holders.find(h => h.address.toLowerCase() === key)`, as an index: the
   * first holder whose lower-cased address is `key`, if any.
   */
  function FindHolder(key: string, holders: seq<Holder>): (found: Option<nat>)
    ensures found.None? <==> forall i :: 0 <= i < |holders| ==> Lower(holders[i].address) != key
    ensures found.Some? ==>
              && found.value < |holders|
              && Lower(holders[found.value].address) == key
              && forall i :: 0 <= i < found.value ==> Lower(holders[i].address) != key
  {
    if holders == [] then None
    else if Lower(holders[0].address) == key then Some(0)
    else
      match FindHolder(key, holders[1..])
      case None => None
      case Some(i) => Some(i + 1)
  }

  /**
   * `findCreatorBalance`: "No Data" for a sentinel creator, "SOLD" when the
   * creator is not among the holders (compared case-insensitively), and
   * otherwise the matching holder's percentage.
   */
  function FindCreatorBalance(creator: string, holders: seq<Holder>): (balance: CreatorBalance)
    ensures balance == BalanceNoData <==> IsSentinel(creator)
    ensures balance == Sold <==>
              !IsSentinel(creator) &&
              forall i :: 0 <= i < |holders| ==> Lower(holders[i].address) != Lower(creator)
    ensures balance.Holds? ==>
              exists i :: 0 <= i < |holders| && Lower(holders[i].address) == Lower(creator)
                          && balance.percent == holders[i].percentage
                          && forall j :: 0 <= j < i ==> Lower(holders[j].address) != Lower(creator)
    ensures !balance.BalanceError?
  {
    if IsSentinel(creator) then BalanceNoData
    else
      match FindHolder(Lower(creator), holders)
      case None => Sold
      case Some(i) => Holds(holders[i].percentage)
  }

  /**
   * The balance the request handler computes: it skips the lookup itself
   * when the creator is "No Data".
   */
  function GuardedCreatorBalance(creator: string, holders: seq<Holder>): (balance: CreatorBalance)
    ensures balance == FindCreatorBalance(creator, holders)
  {
    if creator != NoData then FindCreatorBalance(creator, holders) else BalanceNoData
  }

  /**
   * The lookup ignores letter case: two creator spellings that lower-case
   * alike get the same balance (unless one of them is a sentinel, which is
   * compared exactly).
   */
  lemma BalanceIgnoresCase(c1: string, c2: string, holders: seq<Holder>)
    requires Lower(c1) == Lower(c2) && !IsSentinel(c1) && !IsSentinel(c2)
    ensures FindCreatorBalance(c1, holders) == FindCreatorBalance(c2, holders)
  {
  }

  /** A failed creator resolution always yields "No Data" for the balance. */
  lemma FailedResolutionHasNoBalance(lookup: CreationLookup, holders: seq<Holder>)
    requires !(lookup.CreationPayload? && lookup.status == "1" &&
               lookup.result.Some? && |lookup.result.value| > 0)
    ensures GuardedCreatorBalance(CreatorAddress(lookup), holders) == BalanceNoData
  {
  }
}
