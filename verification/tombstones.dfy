/** The bounded memory of terminated calls, and the log it is a window on. */
module Tombstones {
  import opened OrderedDicts

  type CallId = string

  type Entry = (CallId, int)

  const MAX_TERMINATED_CALL_IDS: nat := 512

  // ---------- what the program does ----------

  /** Assign and move to the end. */
  function Remember(d: Dict<CallId, int>, id: CallId, generation: int): Dict<CallId, int>
  {
    Remove(d, id) + [(id, generation)]
  }

  /** Evict the oldest entries beyond the bound. */
  function Trim(d: Dict<CallId, int>, bound: nat): Dict<CallId, int>
  {
    if |d| > bound then d[|d| - bound..] else d
  }

  /** Remember several ids, skipping empty ones, then evict. */
  function RememberEach(d: Dict<CallId, int>, ids: seq<CallId>, generation: int): Dict<CallId, int>
    decreases |ids|
  {
    if ids == [] then d
    else RememberEach(if ids[0] == "" then d else Remember(d, ids[0], generation), ids[1..], generation)
  }

  function RememberAll(d: Dict<CallId, int>, ids: seq<CallId>, generation: int): Dict<CallId, int>
  {
    Trim(RememberEach(d, ids, generation), MAX_TERMINATED_CALL_IDS)
  }

  // ---------- what it means ----------

  /** The entries no later entry overrides, oldest first. */
  function Latest(log: seq<Entry>): seq<Entry>
  {
    if log == [] then []
    else (if Has(log[1..], log[0].0) then [] else [log[0]]) + Latest(log[1..])
  }

  /** What one batch adds to the log. */
  function Logged(ids: seq<CallId>, generation: int): seq<Entry>
  {
    if ids == [] then []
    else (if ids[0] == "" then [] else [(ids[0], generation)]) + Logged(ids[1..], generation)
  }

  /** The dictionary is a suffix of the full history that is short only if nothing was evicted. */
  ghost predicate Window(d: Dict<CallId, int>, history: seq<Entry>, bound: nat)
  {
    && |d| <= |history|
    && d == history[|history| - |d|..]
    && (bound <= |d| || d == history)
  }

  /** The dictionary holds exactly the last 512 distinct ids of the log, oldest first, each with its
      latest generation. */
  ghost predicate Refines(d: Dict<CallId, int>, log: seq<Entry>)
  {
    d == Trim(Latest(log), MAX_TERMINATED_CALL_IDS)
  }

  lemma {:induction false} HasAppend<V>(a: Dict<CallId, V>, b: Dict<CallId, V>, k: CallId)
    ensures Has(a + b, k) <==> Has(a, k) || Has(b, k)
    decreases |a|
  {
    if a == [] {
      assert a + b == b;
    } else {
      HasCons(a + b, k);
      HasCons(a, k);
      assert (a + b)[1..] == a[1..] + b;
      HasAppend(a[1..], b, k);
    }
  }

  lemma {:induction false} LatestHas(log: seq<Entry>, k: CallId)
    ensures Has(Latest(log), k) <==> Has(log, k)
    decreases |log|
  {
    if log != [] {
      HasCons(log, k);
      LatestHas(log[1..], k);
      var head := if Has(log[1..], log[0].0) then [] else [log[0]];
      HasAppend(head, Latest(log[1..]), k);
      if head != [] {
        HasCons(head, k);
        assert !Has(head[1..], k);
      }
    }
  }

  lemma {:induction false} LatestDistinct(log: seq<Entry>)
    ensures Distinct(Latest(log))
    decreases |log|
  {
    if log != [] {
      LatestDistinct(log[1..]);
      LatestHas(log[1..], log[0].0);
      if !Has(log[1..], log[0].0) {
        DistinctTail(Latest(log));
        assert Latest(log)[1..] == Latest(log[1..]);
      }
    }
  }

  lemma LatestStep(head: Entry, t: seq<Entry>)
    ensures Latest([head] + t) == if Has(t, head.0) then Latest(t) else [head] + Latest(t)
  {
    assert ([head] + t)[1..] == t;
  }

  lemma RemoveStep(head: Entry, t: seq<Entry>, k: CallId)
    ensures Remove([head] + t, k) == if head.0 == k then Remove(t, k) else [head] + Remove(t, k)
  {
    assert ([head] + t)[1..] == t;
  }

  /** Appending one entry overrides the earlier one of the same id. */
  lemma {:induction false} LatestOneMore(log: seq<Entry>, e: Entry)
    ensures Latest(log + [e]) == Remove(Latest(log), e.0) + [e]
    decreases |log|
  {
    if log == [] {
      assert log + [e] == [e] + [];
      LatestStep(e, []);
    } else {
      var head, t := log[0], log[1..];
      LatestOneMore(t, e);
      assert log == [head] + t && log + [e] == [head] + (t + [e]);
      LatestStep(head, t);
      LatestStep(head, t + [e]);
      HasAppend(t, [e], head.0);
      HasCons([e], head.0);
      RemoveStep(head, Latest(t), e.0);
      AppendAssociative([head], Remove(Latest(t), e.0), [e]);
    }
  }

  lemma {:induction false} RemoveAppend(a: seq<Entry>, b: seq<Entry>, k: CallId)
    ensures Remove(a + b, k) == Remove(a, k) + Remove(b, k)
    decreases |a|
  {
    if a == [] {
      assert a + b == b;
    } else {
      assert (a + b)[1..] == a[1..] + b;
      RemoveAppend(a[1..], b, k);
    }
  }

  lemma {:induction false} RemoveOnce(d: Dict<CallId, int>, k: CallId)
    requires Distinct(d)
    ensures |d| - 1 <= |Remove(d, k)|
    decreases |d|
  {
    if d != [] {
      DistinctTail(d);
      if d[0].0 == k {
        RemoveAbsent(d[1..], k);
      } else {
        RemoveOnce(d[1..], k);
      }
    }
  }

  lemma SuffixDistinct(history: seq<Entry>, n: nat)
    requires Distinct(history) && n <= |history|
    ensures Distinct(history[n..])
  {
    var d := history[n..];
    forall i, j | 0 <= i < j < |d| ensures d[i].0 != d[j].0 {
      assert d[i] == history[n + i] && d[j] == history[n + j];
    }
  }

  /** Remembering in the window is remembering in the history. */
  lemma WindowRemember(d: Dict<CallId, int>, history: seq<Entry>, bound: nat, id: CallId, generation: int)
    requires Distinct(history) && Window(d, history, bound)
    ensures Window(Remember(d, id, generation), Remember(history, id, generation), bound)
  {
    var n := |history| - |d|;
    assert history == history[..n] + d;
    RemoveAppend(history[..n], d, id);
    SuffixDistinct(history, n);
    RemoveOnce(d, id);
    var gone := Remove(history[..n], id);
    assert Remember(history, id, generation) == gone + Remember(d, id, generation);
    if d == history {
      assert history[..n] == [];
    }
  }

  lemma WindowTrim(d: Dict<CallId, int>, history: seq<Entry>, bound: nat)
    requires Window(d, history, bound)
    ensures Trim(d, bound) == Trim(history, bound)
    ensures Window(Trim(d, bound), history, bound)
  {
  }

  lemma AppendAssociative(a: seq<Entry>, b: seq<Entry>, c: seq<Entry>)
    ensures (a + b) + c == a + (b + c)
  {
  }

  lemma LoggedStep(ids: seq<CallId>, generation: int, log: seq<Entry>)
    requires ids != []
    ensures ids[0] == "" ==> log + Logged(ids, generation) == log + Logged(ids[1..], generation)
    ensures ids[0] != "" ==>
      log + Logged(ids, generation) == (log + [(ids[0], generation)]) + Logged(ids[1..], generation)
  {
    AppendAssociative(log, [(ids[0], generation)], Logged(ids[1..], generation));
    assert [] + Logged(ids[1..], generation) == Logged(ids[1..], generation);
  }

  lemma {:induction false} WindowEach(d: Dict<CallId, int>, log: seq<Entry>, bound: nat, ids: seq<CallId>, generation: int)
    requires Window(d, Latest(log), bound)
    ensures Window(RememberEach(d, ids, generation), Latest(log + Logged(ids, generation)), bound)
    decreases |ids|
  {
    if ids == [] {
      assert log + [] == log;
    } else {
      LoggedStep(ids, generation, log);
      if ids[0] == "" {
        WindowEach(d, log, bound, ids[1..], generation);
      } else {
        LatestDistinct(log);
        WindowRemember(d, Latest(log), bound, ids[0], generation);
        LatestOneMore(log, (ids[0], generation));
        WindowEach(Remember(d, ids[0], generation), log + [(ids[0], generation)], bound, ids[1..], generation);
      }
    }
  }

  /** One batch keeps the dictionary a window on the log. */
  lemma RememberRefines(d: Dict<CallId, int>, log: seq<Entry>, ids: seq<CallId>, generation: int)
    requires Refines(d, log)
    ensures Refines(RememberAll(d, ids, generation), log + Logged(ids, generation))
  {
    WindowEach(d, log, MAX_TERMINATED_CALL_IDS, ids, generation);
    WindowTrim(RememberEach(d, ids, generation), Latest(log + Logged(ids, generation)), MAX_TERMINATED_CALL_IDS);
  }

  // ---------- how long an id is remembered ----------

  /** The ids a stretch of the log names. */
  function Ids(log: seq<Entry>): set<CallId>
  {
    set i | 0 <= i < |log| :: log[i].0
  }

  lemma InIds(log: seq<Entry>, k: CallId)
    ensures k in Ids(log) <==> Has(log, k)
  {
  }

  lemma {:induction false} LatestCounts(log: seq<Entry>)
    ensures |Latest(log)| == |Ids(log)|
    decreases |log|
  {
    if log != [] {
      var t := log[1..];
      LatestCounts(t);
      InIds(t, log[0].0);
      forall k ensures k in Ids(log) <==> k in Ids(t) + {log[0].0} {
        InIds(log, k);
        InIds(t, k);
        HasCons(log, k);
      }
      assert Ids(log) == Ids(t) + {log[0].0};
    }
  }

  /** Later entries follow what survives of the earlier ones. */
  lemma {:induction false} LatestAppend(a: seq<Entry>, b: seq<Entry>) returns (kept: seq<Entry>)
    ensures Latest(a + b) == kept + Latest(b)
    ensures forall k :: Has(kept, k) ==> !Has(b, k)
    decreases |a|
  {
    if a == [] {
      assert a + b == b;
      kept := [];
    } else {
      var rest := LatestAppend(a[1..], b);
      assert (a + b)[1..] == a[1..] + b;
      HasAppend(a[1..], b, a[0].0);
      if Has(a[1..] + b, a[0].0) {
        kept := rest;
      } else {
        kept := [a[0]] + rest;
        forall k | Has(kept, k) ensures !Has(b, k) {
          HasCons(kept, k);
          assert kept[1..] == rest;
        }
      }
    }
  }

  /** An id remembered and not remembered again is in the window exactly while fewer than 512 other
      ids have been remembered since. */
  lemma RememberedWhile(before: seq<Entry>, id: CallId, generation: int, since: seq<Entry>, d: Dict<CallId, int>)
    requires Refines(d, before + [(id, generation)] + since) && !Has(since, id)
    ensures Has(d, id) <==> |Ids(since)| < MAX_TERMINATED_CALL_IDS
    ensures Has(d, id) ==> Get(d, id, 0) == generation
  {
    var e := (id, generation);
    var kept := LatestAround(before, e, since);
    LatestCounts(since);
    LatestHas(since, id);
    var drop := |Latest(before + [e] + since)| - |d|;
    if |Ids(since)| < MAX_TERMINATED_CALL_IDS {
      InWindow(kept, e, Latest(since), drop, d);
    } else {
      PastWindow(kept, e, Latest(since), drop, d);
    }
  }

  lemma LatestAround(before: seq<Entry>, e: Entry, since: seq<Entry>) returns (kept: seq<Entry>)
    requires !Has(since, e.0)
    ensures Latest(before + [e] + since) == kept + [e] + Latest(since) && !Has(kept, e.0)
  {
    var tail := [e] + since;
    assert before + [e] + since == before + tail;
    kept := LatestAppend(before, tail);
    assert tail[1..] == since;
    assert Latest(tail) == [e] + Latest(since);
    assert kept + ([e] + Latest(since)) == kept + [e] + Latest(since);
    HasCons(tail, e.0);
  }

  lemma InWindow(kept: seq<Entry>, e: Entry, later: seq<Entry>, drop: nat, d: Dict<CallId, int>)
    requires drop <= |kept| && !Has(kept, e.0) && d == (kept + [e] + later)[drop..]
    ensures Has(d, e.0) && Get(d, e.0, 0) == e.1
  {
    assert d == kept[drop..] + [e] + later;
    assert d[|kept| - drop] == e;
    NoneBefore(kept, drop, e.0);
    GetAfter(kept[drop..], e, later);
  }

  lemma PastWindow(kept: seq<Entry>, e: Entry, later: seq<Entry>, drop: nat, d: Dict<CallId, int>)
    requires |kept| < drop <= |kept| + 1 + |later| && !Has(later, e.0) && d == (kept + [e] + later)[drop..]
    ensures !Has(d, e.0)
  {
    forall i | 0 <= i < |d| ensures d[i].0 != e.0 {
      assert d[i] == later[drop - |kept| - 1 + i];
    }
  }

  lemma NoneBefore(kept: seq<Entry>, drop: nat, id: CallId)
    requires drop <= |kept| && !Has(kept, id)
    ensures !Has(kept[drop..], id)
  {
    forall i | 0 <= i < |kept[drop..]| ensures kept[drop..][i].0 != id {
      assert kept[drop..][i] == kept[drop + i];
    }
  }

  lemma {:induction false} GetAfter(a: seq<Entry>, e: Entry, b: seq<Entry>)
    requires !Has(a, e.0)
    ensures Get(a + [e] + b, e.0, 0) == e.1
    decreases |a|
  {
    if a == [] {
      assert a + [e] + b == [e] + b;
    } else {
      HasCons(a, e.0);
      assert (a + [e] + b)[1..] == a[1..] + [e] + b;
      GetAfter(a[1..], e, b);
    }
  }

  // ---------- exactly which ids are remembered ----------

  /** What the log says after its last entry of an id. */
  function AfterLast(log: seq<Entry>, id: CallId): seq<Entry>
  {
    if log == [] then []
    else if Has(log[1..], id) then AfterLast(log[1..], id)
    else if log[0].0 == id then log[1..]
    else log
  }

  /** The log names the id, and fewer than 512 other ids after it did so last. */
  predicate Remembers(log: seq<Entry>, id: CallId)
  {
    Has(log, id) && |Ids(AfterLast(log, id))| < 512
  }

  /** The generation an id was named with last. */
  function LastGeneration(log: seq<Entry>, id: CallId): int
    requires Has(log, id)
  {
    HasCons(log, id);
    if Has(log[1..], id) then LastGeneration(log[1..], id) else log[0].1
  }

  lemma {:induction false} LastGenerationAppend(a: seq<Entry>, b: seq<Entry>, id: CallId)
    requires Has(a, id) || Has(b, id)
    ensures Has(a + b, id)
    ensures LastGeneration(a + b, id) == if Has(b, id) then LastGeneration(b, id) else LastGeneration(a, id)
    decreases |a|
  {
    HasAppend(a, b, id);
    if a == [] {
      assert a + b == b;
    } else {
      assert (a + b)[0] == a[0] && (a + b)[1..] == a[1..] + b;
      HasCons(a, id);
      HasAppend(a[1..], b, id);
      if Has(a[1..], id) || Has(b, id) {
        LastGenerationAppend(a[1..], b, id);
      }
    }
  }

  /** One batch names its ids, but for empty ones, all with one generation. */
  lemma {:induction false} LoggedOnce(ids: seq<CallId>, generation: int, id: CallId)
    ensures Has(Logged(ids, generation), id) <==> id in ids && id != ""
    ensures Has(Logged(ids, generation), id) ==> LastGeneration(Logged(ids, generation), id) == generation
    decreases |ids|
  {
    if ids != [] {
      var rest := Logged(ids[1..], generation);
      LoggedOnce(ids[1..], generation, id);
      assert ids == [ids[0]] + ids[1..];
      if ids[0] == "" {
        assert [] + rest == rest;
      } else {
        assert ([(ids[0], generation)] + rest)[1..] == rest;
        HasCons([(ids[0], generation)] + rest, id);
      }
    }
  }

  lemma LastNamed(log: seq<Entry>, id: CallId) returns (i: nat)
    requires Has(log, id)
    ensures i < |log| && log[i].0 == id && !Has(log[i + 1..], id) && log[i].1 == LastGeneration(log, id)
    ensures AfterLast(log, id) == log[i + 1..]
    decreases |log|
  {
    HasCons(log, id);
    if Has(log[1..], id) {
      var j := LastNamed(log[1..], id);
      i := j + 1;
      assert log[1..][j + 1..] == log[i + 1..];
    } else {
      i := 0;
    }
  }

  /** For every log: the memory holds exactly the ids the log names and has not named 512 others since,
      each with the generation named last. */
  lemma RememberedExactly(log: seq<Entry>, id: CallId, d: Dict<CallId, int>)
    requires Refines(d, log)
    ensures Has(d, id) <==> Remembers(log, id)
    ensures Has(d, id) ==> Get(d, id, 0) == LastGeneration(log, id)
  {
    if Has(log, id) {
      var i := LastNamed(log, id);
      assert log == log[..i] + [log[i]] + log[i + 1..];
      RememberedWhile(log[..i], id, log[i].1, log[i + 1..], d);
    } else {
      LatestHas(log, id);
      var h := Latest(log);
      assert d == h[|h| - |d|..];
      NoneBefore(h, |h| - |d|, id);
    }
  }
}
