/**
 * Ticket loading after the JSON file has been parsed: the per-record
 * validity check, the order-preserving filter with its three outcomes, the
 * prefix sample, and the per-status and per-priority counts.
 */
module DataLoader {
  import opened Wrappers
  import opened Text
  import opened JsonValue
  import opened Lists

  /**
   * `field in ticket`, `ticket[field]` truthy, and `str(ticket[field]).strip()`
   * non-empty, which `Strip`'s contract equates with the rendering not being blank.
   */
  predicate FieldOk(d: Dict, field: string)
  {
    field in d && Truthy(d[field]) && !IsBlank(Str(d[field]))
  }

  /**
   * The per-record check: a dictionary whose required fields `id`, `subject`
   * and `body` (checked in this order) all pass `FieldOk`, and whose
   * `str(id).strip()` is then checked again to be non-empty.
   */
  predicate IsValidTicket(v: Json)
  {
    && v.JObj?
    && FieldOk(v.fields, "id")
    && FieldOk(v.fields, "subject")
    && FieldOk(v.fields, "body")
    && !IsBlank(Str(v.fields["id"]))
  }

  /**
   * The second test on a field only matters for strings: any other truthy
   * value renders as non-blank text. So a ticket is accepted exactly when it
   * is a dictionary whose `id`, `subject` and `body` are present, truthy, and
   * not blank if they are strings; the re-check of the id rejects nothing
   * more, and every accepted ticket has a non-empty stripped id.
   */
  lemma ValidTicketIff(v: Json)
    ensures IsValidTicket(v) <==>
      && v.JObj?
      && (forall f :: f in ["id", "subject", "body"] ==>
            f in v.fields && Truthy(v.fields[f]) && (v.fields[f].JStr? ==> !IsBlank(v.fields[f].s)))
    ensures IsValidTicket(v) ==> Strip(Str(v.fields["id"])) != []
  {
    if v.JObj? {
      FieldOkIff(v.fields, "id");
      FieldOkIff(v.fields, "subject");
      FieldOkIff(v.fields, "body");
    }
  }

  lemma FieldOkIff(d: Dict, field: string)
    ensures FieldOk(d, field) <==>
      field in d && Truthy(d[field]) && (d[field].JStr? ==> !IsBlank(d[field].s))
  {
    if field in d {
      OnlyStringsRenderBlank(d[field]);
    }
  }

  /** What the filter keeps of one value: the dictionary itself if it is valid. */
  function Validated(v: Json): (r: Option<Dict>)
  {
    if IsValidTicket(v) then Some(v.fields) else None
  }

  /** The valid tickets of `raw`, in their original order. */
  function ValidTickets(raw: seq<Json>): (r: seq<Dict>)
  {
    FilterMap(raw, Validated)
  }

  /** Every ticket the filter keeps passed validation. */
  lemma AllKeptValid(raw: seq<Json>)
    ensures forall j :: 0 <= j < |ValidTickets(raw)| ==> IsValidTicket(JObj(ValidTickets(raw)[j]))
  {
    forall j | 0 <= j < |ValidTickets(raw)|
      ensures IsValidTicket(JObj(ValidTickets(raw)[j]))
    {
      FilterMapSource(raw, Validated, j);
    }
  }

  /**
   * No ticket is duplicated or invented: each dictionary occurs in the result
   * exactly as often as it occurs, as a valid ticket, in the input.
   */
  lemma ValidTicketsMultiplicity(raw: seq<Json>, t: Dict)
    ensures multiset(ValidTickets(raw))[t] ==
      if IsValidTicket(JObj(t)) then multiset(raw)[JObj(t)] else 0
  {
    forall y | Validated(y) == Some(t)
      ensures y == JObj(t)
    {
    }
    FilterMapCount(raw, Validated, JObj(t), t);
  }

  /** Why loading failed; file-system and JSON-syntax failures are not modelled. */
  datatype LoadError = NotAList | NoValidTickets

  /** The outcome of `load_all_tickets` once the file has been parsed into `parsed`. */
  function Load(parsed: Json): Result<seq<Dict>, LoadError>
  {
    if !parsed.JList? then Err(NotAList)
    else if parsed.items == [] then Ok([])
    else if ValidTickets(parsed.items) == [] then Err(NoValidTickets)
    else Ok(ValidTickets(parsed.items))
  }

  /**
   * The three outcomes: a non-list is an error, an empty list gives no
   * tickets, a non-empty list with no valid ticket is an error; otherwise the
   * result is the non-empty list of valid tickets.
   */
  lemma LoadOutcomes(parsed: Json)
    ensures Load(parsed) == Err(NotAList) <==> !parsed.JList?
    ensures Load(parsed) == Ok([]) <==> parsed == JList([])
    ensures Load(parsed) == Err(NoValidTickets) <==>
      parsed.JList? && parsed.items != [] && forall i :: 0 <= i < |parsed.items| ==> !IsValidTicket(parsed.items[i])
    ensures Load(parsed).Ok? && Load(parsed).value != [] ==>
      parsed.JList? && Load(parsed).value == ValidTickets(parsed.items)
  {
    if parsed.JList? {
      FilterMapEmpty(parsed.items, Validated);
    }
  }

  /** `load_all_tickets` after parsing: validate each record in turn and keep the valid ones. */
  method LoadAllTickets(parsed: Json) returns (r: Result<seq<Dict>, LoadError>)
    ensures r == Load(parsed)
  {
    if !parsed.JList? {
      return Err(NotAList);
    }
    var tickets := parsed.items;
    if tickets == [] {
      return Ok([]);
    }
    var valid: seq<Dict> := [];
    var i := 0;
    while i < |tickets|
      invariant 0 <= i <= |tickets|
      invariant valid == ValidTickets(tickets[..i])
    {
      FilterMapStep(tickets, Validated, i);
      if IsValidTicket(tickets[i]) {
        valid := valid + [tickets[i].fields];
      }
      i := i + 1;
    }
    assert tickets[..i] == tickets;
    if valid == [] {
      return Err(NoValidTickets);
    }
    return Ok(valid);
  }

  /** Python's `s[:m]` for any integer `m`; a negative `m` counts from the end. */
  function PySliceTo<T>(s: seq<T>, m: int): (r: seq<T>)
    ensures |r| <= |s| && r == s[..|r|]
  {
    if m >= 0 then Prefix(s, m)
    else if |s| + m <= 0 then []
    else s[..|s| + m]
  }

  /**
   * `get_ticket_sample(n)`: the first `min(n, len)` loaded tickets, or no
   * tickets when loading fails. A negative `n` follows Python's slicing and
   * drops `-n` tickets from the end.
   */
  function GetTicketSample(parsed: Json, n: int := 5): (r: seq<Dict>)
    ensures Load(parsed).Err? ==> r == []
    ensures Load(parsed).Ok? ==> |r| <= |Load(parsed).value| && r == Load(parsed).value[..|r|]
    ensures Load(parsed).Ok? && n >= 0 ==>
      |r| == if n < |Load(parsed).value| then n else |Load(parsed).value|
    ensures Load(parsed).Ok? && n < 0 ==>
      |r| == if |Load(parsed).value| + n > 0 then |Load(parsed).value| + n else 0
  {
    match Load(parsed)
    case Err(_) => []
    case Ok(tickets) =>
      PySliceTo(tickets, if n < |tickets| then n else |tickets|)
  }

  /**
   * A hashable dictionary key, as the value the ticket holds. Python's `True`
   * and `1` (and `False` and `0`) are equal keys: keys are compared by
   * `SameKey`, and a dictionary keeps the key it was first given.
   */
  datatype Key = KNull | KBool(b: bool) | KInt(i: int) | KStr(s: string)

  /** The value a key stands for under Python's `==`: a boolean is the integer it equals. */
  function Hashed(k: Key): Key
  {
    if k.KBool? then KInt(if k.b then 1 else 0) else k
  }

  /** Whether two keys find the same dictionary entry. */
  predicate SameKey(a: Key, b: Key)
  {
    Hashed(a) == Hashed(b)
  }

  /** The key a value stands for, or `None` for a list or an object, which Python cannot hash. */
  function HashKey(v: Json): Option<Key>
  {
    match v
    case JNull => Some(KNull)
    case JBool(b) => Some(KBool(b))
    case JInt(i) => Some(KInt(i))
    case JStr(s) => Some(KStr(s))
    case JList(_) => None
    case JObj(_) => None
  }

  /** The key a ticket is counted under: `ticket.get(field, "unknown")`. */
  function KeyOf(t: Dict, field: string): Option<Key>
  {
    HashKey(Get(t, field, JStr("unknown")))
  }

  /** A dictionary of counts, as its entries in insertion order. */
  type Counts = seq<(Key, nat)>

  /** `counts.get(k, 0)` */
  function Lookup(d: Counts, k: Key): nat
  {
    if d == [] then 0 else if SameKey(d[0].0, k) then d[0].1 else Lookup(d[1..], k)
  }

  /** `k in counts` */
  predicate HasKey(d: Counts, k: Key)
  {
    d != [] && (SameKey(d[0].0, k) || HasKey(d[1..], k))
  }

  /** No two keys are equal. */
  predicate DistinctKeys(d: Counts)
  {
    forall i, j :: 0 <= i < j < |d| ==> !SameKey(d[i].0, d[j].0)
  }

  /** The sum of all counts. */
  function SumCounts(d: Counts): nat
  {
    if d == [] then 0 else d[0].1 + SumCounts(d[1..])
  }

  /**
   * `counts[k] = counts.get(k, 0) + 1`: an existing entry keeps its place and
   * its key, a new key goes last.
   */
  function Bump(d: Counts, k: Key): Counts
  {
    if d == [] then [(k, 1)]
    else if SameKey(d[0].0, k) then [(d[0].0, d[0].1 + 1)] + d[1..]
    else [d[0]] + Bump(d[1..], k)
  }

  /** One increment: the total and the bumped key grow by one, nothing else changes, keys stay distinct. */
  lemma {:induction false} BumpEffect(d: Counts, k: Key)
    requires DistinctKeys(d)
    ensures SumCounts(Bump(d, k)) == SumCounts(d) + 1
    ensures forall k' :: Lookup(Bump(d, k), k') == Lookup(d, k') + (if SameKey(k', k) then 1 else 0)
    ensures forall k' :: HasKey(Bump(d, k), k') <==> HasKey(d, k') || SameKey(k', k)
    ensures DistinctKeys(Bump(d, k))
  {
    if d != [] && !SameKey(d[0].0, k) {
      BumpEffect(d[1..], k);
      var rest := Bump(d[1..], k);
      forall j | 0 < j < |Bump(d, k)|
        ensures !SameKey(Bump(d, k)[j].0, d[0].0)
      {
        assert Bump(d, k)[j] == rest[j - 1];
        KeyAt(rest, j - 1);
        if SameKey(rest[j - 1].0, d[0].0) {
          assert HasKey(d[1..], d[0].0);
          HasKeyAt(d[1..], d[0].0);
        }
      }
    } else if d != [] {
      forall k' | !SameKey(k', k) ensures HasKey(Bump(d, k), k') <==> HasKey(d, k') {
        assert Bump(d, k)[1..] == d[1..];
      }
      assert Bump(d, k)[1..] == d[1..];
    }
  }

  /**
   * An increment keeps every existing entry's key in its place; a key not yet
   * present is appended with count 1.
   */
  lemma {:induction false} BumpKeepsKeys(d: Counts, k: Key)
    ensures |Bump(d, k)| == if HasKey(d, k) then |d| else |d| + 1
    ensures forall j :: 0 <= j < |d| ==> Bump(d, k)[j].0 == d[j].0
    ensures !HasKey(d, k) ==> Bump(d, k)[|d|] == (k, 1)
  {
    if d != [] && !SameKey(d[0].0, k) {
      BumpKeepsKeys(d[1..], k);
      forall j | 0 < j < |d| ensures Bump(d, k)[j].0 == d[j].0 {
        assert Bump(d, k)[j] == Bump(d[1..], k)[j - 1];
      }
    }
  }

  lemma {:induction false} KeyAt(d: Counts, j: nat)
    requires j < |d|
    ensures forall k :: SameKey(d[j].0, k) ==> HasKey(d, k)
  {
    if j > 0 {
      KeyAt(d[1..], j - 1);
    }
  }

  lemma {:induction false} HasKeyAt(d: Counts, k: Key)
    requires HasKey(d, k)
    ensures exists j :: 0 <= j < |d| && SameKey(d[j].0, k)
  {
    if !SameKey(d[0].0, k) {
      HasKeyAt(d[1..], k);
      var j :| 0 <= j < |d[1..]| && SameKey(d[1..][j].0, k);
      assert SameKey(d[j + 1].0, k);
    }
  }

  /** The counts built by bumping each key of `ks` in turn, from an empty dictionary. */
  function Tally(ks: seq<Key>): Counts
  {
    if ks == [] then [] else Bump(Tally(ks[..|ks| - 1]), ks[|ks| - 1])
  }

  /** The values the keys of `ks` stand for, in order. */
  function HashedAll(ks: seq<Key>): seq<Key>
  {
    seq(|ks|, i requires 0 <= i < |ks| => Hashed(ks[i]))
  }

  /**
   * Counting `ks` gives each key the number of keys of `ks` equal to it, holds
   * exactly the keys equal to some key of `ks`, each once, and its counts add
   * up to `|ks|`.
   */
  lemma {:induction false} TallyCounts(ks: seq<Key>)
    ensures DistinctKeys(Tally(ks))
    ensures SumCounts(Tally(ks)) == |ks|
    ensures forall k :: Lookup(Tally(ks), k) == multiset(HashedAll(ks))[Hashed(k)]
    ensures forall k :: HasKey(Tally(ks), k) <==> Hashed(k) in HashedAll(ks)
  {
    if ks != [] {
      var init, last := ks[..|ks| - 1], ks[|ks| - 1];
      TallyCounts(init);
      BumpEffect(Tally(init), last);
      HashedAllStep(ks);
    }
  }

  lemma HashedAllStep(ks: seq<Key>)
    requires ks != []
    ensures multiset(HashedAll(ks)) == multiset(HashedAll(ks[..|ks| - 1])) + multiset{Hashed(ks[|ks| - 1])}
    ensures Hashed(ks[|ks| - 1]) in HashedAll(ks)
    ensures forall x :: x in HashedAll(ks[..|ks| - 1]) ==> x in HashedAll(ks)
  {
    assert HashedAll(ks) == HashedAll(ks[..|ks| - 1]) + [Hashed(ks[|ks| - 1])];
  }

  /** `ks[i]` is the first key of `ks` equal to it. */
  predicate FirstSeen(ks: seq<Key>, i: nat)
    requires i < |ks|
  {
    forall i' :: 0 <= i' < i ==> !SameKey(ks[i'], ks[i])
  }

  /**
   * Each reported key is the first key of `ks` equal to it: Python keeps the
   * key object that created the entry, so `True` counted before `1` is
   * reported as `True`.
   */
  lemma {:induction false} TallyKeysFirstSeen(ks: seq<Key>)
    ensures forall j :: 0 <= j < |Tally(ks)| ==>
      exists i :: 0 <= i < |ks| && Tally(ks)[j].0 == ks[i] && FirstSeen(ks, i)
  {
    if ks != [] {
      var init, last := ks[..|ks| - 1], ks[|ks| - 1];
      assert Tally(ks) == Bump(Tally(init), last);
      TallyKeysFirstSeen(init);
      TallyCounts(init);
      BumpKeepsKeys(Tally(init), last);
      forall j | 0 <= j < |Tally(ks)|
        ensures exists i :: 0 <= i < |ks| && Tally(ks)[j].0 == ks[i] && FirstSeen(ks, i)
      {
        if j < |Tally(init)| {
          var i :| 0 <= i < |init| && Tally(init)[j].0 == init[i] && FirstSeen(init, i);
          assert ks[i] == init[i];
          assert forall i' :: 0 <= i' < i ==> ks[i'] == init[i'];
          assert FirstSeen(ks, i);
        } else {
          assert Hashed(last) !in HashedAll(init);
          forall i' | 0 <= i' < |ks| - 1 ensures !SameKey(ks[i'], last) {
            assert HashedAll(init)[i'] == Hashed(ks[i']);
          }
          assert FirstSeen(ks, |ks| - 1);
          assert Tally(ks)[j].0 == ks[|ks| - 1];
        }
      }
    } else {
      assert Tally(ks) == [];
    }
  }

  /** A status `true` followed by a status `1` is one entry, reported under `True`, with count 2. */
  lemma TrueThenOneCountedUnderTrue()
    ensures Tally([KBool(true), KInt(1)]) == [(KBool(true), 2)]
  {
  }

  /** The keys the tickets are counted under for `field`, or `None` if one of them cannot be hashed. */
  function FieldKeys(ts: seq<Dict>, field: string): (r: Option<seq<Key>>)
    ensures r.Some? ==> |r.value| == |ts|
  {
    if ts == [] then Some([])
    else match (FieldKeys(ts[..|ts| - 1], field), KeyOf(ts[|ts| - 1], field))
      case (Some(ks), Some(k)) => Some(ks + [k])
      case _ => None
  }

  /** The keys line up with the tickets, one each; a ticket without the field is counted as "unknown". */
  lemma {:induction false} FieldKeysAt(ts: seq<Dict>, field: string)
    requires FieldKeys(ts, field).Some?
    ensures forall i :: 0 <= i < |ts| ==>
      KeyOf(ts[i], field) == Some(FieldKeys(ts, field).value[i])
    ensures forall i :: 0 <= i < |ts| && field !in ts[i] ==>
      FieldKeys(ts, field).value[i] == KStr("unknown")
  {
    if ts != [] {
      FieldKeysAt(ts[..|ts| - 1], field);
    }
  }

  datatype StatsError = LoadFailed(cause: LoadError) | Unhashable

  /** The statistics dictionary, or the error it reports. */
  datatype TicketStats =
    | TicketStats(totalTickets: nat, statusBreakdown: Counts, priorityBreakdown: Counts)
    | StatsFailed(error: StatsError)

  /** The status and priority breakdowns of `ts`, or `None` if a key cannot be hashed. */
  function Breakdowns(ts: seq<Dict>): Option<(Counts, Counts)>
  {
    match (FieldKeys(ts, "status"), FieldKeys(ts, "priority"))
    case (Some(sks), Some(pks)) => Some((Tally(sks), Tally(pks)))
    case _ => None
  }

  /** What `get_ticket_stats` reports for the parsed file. */
  function StatsOf(parsed: Json): TicketStats
  {
    match Load(parsed)
    case Err(e) => StatsFailed(LoadFailed(e))
    case Ok(ts) =>
      match Breakdowns(ts)
      case Some((status, priority)) => TicketStats(|ts|, status, priority)
      case None => StatsFailed(Unhashable)
  }

  /**
   * The statistics agree with the tickets: the total is their number, both
   * breakdowns sum to it, and each key's count is the number of tickets
   * whose key equals it (`True` and `1` being equal keys).
   */
  lemma StatsConsistent(parsed: Json)
    requires StatsOf(parsed).TicketStats?
    ensures Load(parsed).Ok?
    ensures StatsOf(parsed).totalTickets == |Load(parsed).value|
    ensures SumCounts(StatsOf(parsed).statusBreakdown) == StatsOf(parsed).totalTickets
    ensures SumCounts(StatsOf(parsed).priorityBreakdown) == StatsOf(parsed).totalTickets
    ensures DistinctKeys(StatsOf(parsed).statusBreakdown)
    ensures DistinctKeys(StatsOf(parsed).priorityBreakdown)
    ensures forall k ::
      Lookup(StatsOf(parsed).statusBreakdown, k) == multiset(HashedAll(FieldKeys(Load(parsed).value, "status").value))[Hashed(k)]
    ensures forall k ::
      Lookup(StatsOf(parsed).priorityBreakdown, k) == multiset(HashedAll(FieldKeys(Load(parsed).value, "priority").value))[Hashed(k)]
  {
    var ts := Load(parsed).value;
    TallyCounts(FieldKeys(ts, "status").value);
    TallyCounts(FieldKeys(ts, "priority").value);
  }

  /** `get_ticket_stats`: count every loaded ticket by status and by priority. */
  method GetTicketStats(parsed: Json) returns (r: TicketStats)
    ensures r == StatsOf(parsed)
  {
    var loaded := LoadAllTickets(parsed);
    if loaded.Err? {
      return StatsFailed(LoadFailed(loaded.error));
    }
    var counts := CountBreakdowns(loaded.value);
    if counts.None? {
      return StatsFailed(Unhashable);
    }
    return TicketStats(|loaded.value|, counts.value.0, counts.value.1);
  }

  /**
   * The counting loop of `get_ticket_stats`: each ticket bumps its status and
   * its priority; an unhashable key ends the count with an error.
   */
  method CountBreakdowns(tickets: seq<Dict>) returns (r: Option<(Counts, Counts)>)
    ensures r == Breakdowns(tickets)
  {
    var statusCounts: Counts := [];
    var priorityCounts: Counts := [];
    var i := 0;
    while i < |tickets|
      invariant 0 <= i <= |tickets|
      invariant Breakdowns(tickets[..i]) == Some((statusCounts, priorityCounts))
    {
      var status := KeyOf(tickets[i], "status");
      var priority := KeyOf(tickets[i], "priority");
      BreakdownsStep(tickets, i);
      if status.None? || priority.None? {
        BreakdownsFailed(tickets, i + 1);
        return None;
      }
      statusCounts := Bump(statusCounts, status.value);
      priorityCounts := Bump(priorityCounts, priority.value);
      i := i + 1;
    }
    assert tickets[..i] == tickets;
    return Some((statusCounts, priorityCounts));
  }

  /** One more ticket bumps both breakdowns, or fails if one of its keys cannot be hashed. */
  lemma BreakdownsStep(ts: seq<Dict>, i: nat)
    requires i < |ts|
    ensures Breakdowns(ts[..i + 1]) ==
      match Breakdowns(ts[..i])
      case Some((status, priority)) =>
        if KeyOf(ts[i], "status").Some? && KeyOf(ts[i], "priority").Some?
        then Some((Bump(status, KeyOf(ts[i], "status").value), Bump(priority, KeyOf(ts[i], "priority").value)))
        else None
      case None => None
  {
    FieldKeysStep(ts, i, "status");
    FieldKeysStep(ts, i, "priority");
    if FieldKeys(ts[..i], "status").Some? && KeyOf(ts[i], "status").Some? {
      TallyStep(FieldKeys(ts[..i], "status").value, KeyOf(ts[i], "status").value);
    }
    if FieldKeys(ts[..i], "priority").Some? && KeyOf(ts[i], "priority").Some? {
      TallyStep(FieldKeys(ts[..i], "priority").value, KeyOf(ts[i], "priority").value);
    }
  }

  /** A failure on a prefix is a failure on the whole list. */
  lemma BreakdownsFailed(ts: seq<Dict>, n: nat)
    requires n <= |ts| && Breakdowns(ts[..n]).None?
    ensures Breakdowns(ts).None?
  {
    if FieldKeys(ts[..n], "status").None? {
      UnhashableSticks(ts, n, "status");
    } else {
      UnhashableSticks(ts, n, "priority");
    }
  }

  /** Extending the tickets by one extends their keys by that ticket's key, if it has one. */
  lemma FieldKeysStep(ts: seq<Dict>, i: nat, field: string)
    requires i < |ts|
    ensures FieldKeys(ts[..i + 1], field) ==
      if FieldKeys(ts[..i], field).Some? && KeyOf(ts[i], field).Some?
      then Some(FieldKeys(ts[..i], field).value + [KeyOf(ts[i], field).value])
      else None
  {
    assert ts[..i + 1][..i] == ts[..i];
    assert ts[..i + 1][i] == ts[i];
  }

  /** Counting one more key bumps it. */
  lemma TallyStep(ks: seq<Key>, k: Key)
    ensures Tally(ks + [k]) == Bump(Tally(ks), k)
  {
    assert (ks + [k])[..|ks|] == ks;
  }

  /** Once a prefix holds an unhashable key, the whole list does. */
  lemma {:induction false} UnhashableSticks(ts: seq<Dict>, n: nat, field: string)
    requires n <= |ts| && FieldKeys(ts[..n], field).None?
    ensures FieldKeys(ts, field).None?
    decreases |ts| - n
  {
    if n < |ts| {
      assert ts[..n + 1][..n] == ts[..n];
      UnhashableSticks(ts, n + 1, field);
    } else {
      assert ts[..n] == ts;
    }
  }
}
