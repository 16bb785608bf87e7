/**
 * Provider resolution: which service supporter verifies a link, decided by
 * exact comparison of the link's hostname with each supporter's host names.
 */
module Registry {
  import opened Values

  /**
   * Whether a supporter's host names contain the link's hostname. A link whose
   * URL has no hostname (a null hostname) equals no host name.
   */
  predicate ListsHost(names: seq<string>, host: Option<string>)
  {
    host.Some? && host.value in names
  }

  /**
   * identifyProvider: the index of the first supporter, in iteration order,
   * that lists the hostname; `None` when no supporter lists it.
   */
  function IdentifyProvider(host: Option<string>, supporters: seq<Supporter>): (r: Option<nat>)
    ensures r.Some? ==>
      && r.value < |supporters|
      && ListsHost(supporters[r.value].hostNames, host)
      && forall j :: 0 <= j < r.value ==> !ListsHost(supporters[j].hostNames, host)
    ensures r.None? ==>
      forall j :: 0 <= j < |supporters| ==> !ListsHost(supporters[j].hostNames, host)
  {
    FindFrom(host, supporters, 0)
  }

  /** The search `_.find` performs, from index `i` onwards. */
  function FindFrom(host: Option<string>, supporters: seq<Supporter>, i: nat): (r: Option<nat>)
    requires i <= |supporters|
    ensures r.Some? ==>
      && i <= r.value < |supporters|
      && ListsHost(supporters[r.value].hostNames, host)
      && forall j :: i <= j < r.value ==> !ListsHost(supporters[j].hostNames, host)
    ensures r.None? ==>
      forall j :: i <= j < |supporters| ==> !ListsHost(supporters[j].hostNames, host)
    decreases |supporters| - i
  {
    if i == |supporters| then None
    else if ListsHost(supporters[i].hostNames, host) then Some(i)
    else FindFrom(host, supporters, i + 1)
  }

  /**
   * Registering further supporters after the existing ones never changes the
   * resolution of a link that an existing supporter already claims, and a link
   * no existing supporter claims goes to the first new one that does.
   */
  lemma IdentifyProviderAppend(host: Option<string>, first: seq<Supporter>, more: seq<Supporter>)
    ensures IdentifyProvider(host, first).Some? ==>
      IdentifyProvider(host, first + more) == IdentifyProvider(host, first)
    ensures IdentifyProvider(host, first).None? ==>
      IdentifyProvider(host, first + more) ==
        match IdentifyProvider(host, more)
        case None => None
        case Some(i) => Some(|first| + i)
  {
    var all := first + more;
    var r := IdentifyProvider(host, all);
    forall j | 0 <= j < |first|
      ensures all[j] == first[j]
    {
    }
    forall j | 0 <= j < |more|
      ensures all[|first| + j] == more[j]
    {
    }
    match IdentifyProvider(host, first)
    case Some(k) =>
      assert ListsHost(all[k].hostNames, host);
    case None =>
      match IdentifyProvider(host, more)
      case Some(k) =>
        assert ListsHost(all[|first| + k].hostNames, host);
      case None =>
  }
}
