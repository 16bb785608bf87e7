/**
 * The unsupported-service tracker: a counter per hostname that no supporter
 * claims, reporting only the first occurrence of each.
 */
module Tracker {
  import opened Values

  /** The message handed to the result handler for an unsupported service. */
  const NoSupportMessage := "No support found for file service."

  /**
   * The property name a hostname becomes in the counter object: JavaScript
   * turns a null hostname into the key "null".
   */
  function CounterKey(host: Option<string>): (key: string)
    ensures host.Some? ==> key == host.value
    ensures key == "null" <==> host == None || host == Some("null")
  {
    if host.Some? then host.value else "null"
  }

  /** The count recorded for a key, an absent key counting zero. */
  function CountOf(counts: map<string, nat>, key: string): nat
  {
    if key in counts then counts[key] else 0
  }

  /** The counter map after one occurrence, and whether it was reported. */
  datatype Step = Step(counts: map<string, nat>, first: bool)

  /**
   * One unsupported occurrence: a key whose count is falsy (absent or zero)
   * is set to 1 and reported; otherwise its count goes up by one. Either way
   * the key's count is its old count plus one and no other key changes.
   */
  function Record(counts: map<string, nat>, key: string): (r: Step)
    ensures r.first <==> CountOf(counts, key) == 0
    ensures r.counts == counts[key := CountOf(counts, key) + 1]
  {
    if key !in counts || counts[key] == 0 then Step(counts[key := 1], true)
    else Step(counts[key := counts[key] + 1], false)
  }

  /** The counter map after a run of occurrences, and the keys reported in order. */
  datatype Tally = Tally(counts: map<string, nat>, reported: seq<string>)

  function TallyAll(counts: map<string, nat>, keys: seq<string>): Tally
  {
    if keys == [] then Tally(counts, [])
    else
      var before := TallyAll(counts, keys[..|keys| - 1]);
      var step := Record(before.counts, keys[|keys| - 1]);
      Tally(step.counts, if step.first then before.reported + [keys[|keys| - 1]] else before.reported)
  }

  /** How many times a key occurs in a sequence. */
  function Occurrences(keys: seq<string>, key: string): nat
  {
    if keys == [] then 0
    else Occurrences(keys[..|keys| - 1], key) + (if keys[|keys| - 1] == key then 1 else 0)
  }

  /**
   * After a run of occurrences each key's count has grown by exactly the
   * number of its occurrences, and a key is reported once if it had no count
   * before and occurs at all, and never otherwise.
   */
  lemma {:induction false} TallyCounts(counts: map<string, nat>, keys: seq<string>, key: string)
    ensures CountOf(TallyAll(counts, keys).counts, key) == CountOf(counts, key) + Occurrences(keys, key)
    ensures key in TallyAll(counts, keys).counts <==> key in counts || Occurrences(keys, key) > 0
    ensures Occurrences(TallyAll(counts, keys).reported, key) ==
      if CountOf(counts, key) == 0 && Occurrences(keys, key) > 0 then 1 else 0
  {
    if keys != [] {
      var prefix, last := keys[..|keys| - 1], keys[|keys| - 1];
      TallyCounts(counts, prefix, key);
      var before := TallyAll(counts, prefix);
      var step := Record(before.counts, last);
      if step.first {
        var reported := before.reported + [last];
        assert reported[..|reported| - 1] == before.reported;
      }
    }
  }

  /** In a fresh run, k occurrences of a host give a count of k and exactly one report. */
  lemma FreshRunCounts(keys: seq<string>, key: string)
    requires Occurrences(keys, key) > 0
    ensures key in TallyAll(map[], keys).counts
    ensures TallyAll(map[], keys).counts[key] == Occurrences(keys, key)
    ensures Occurrences(TallyAll(map[], keys).reported, key) == 1
  {
    TallyCounts(map[], keys, key);
  }

  /** A run split in two: the second part starts from the counters the first left. */
  lemma {:induction false} TallyAppend(counts: map<string, nat>, a: seq<string>, b: seq<string>)
    ensures TallyAll(counts, a + b).counts == TallyAll(TallyAll(counts, a).counts, b).counts
    ensures TallyAll(counts, a + b).reported ==
      TallyAll(counts, a).reported + TallyAll(TallyAll(counts, a).counts, b).reported
  {
    if b == [] {
      assert a + b == a;
    } else {
      assert (a + b)[..|a + b| - 1] == a + b[..|b| - 1];
      TallyAppend(counts, a, b[..|b| - 1]);
    }
  }
}
