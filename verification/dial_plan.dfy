/** Expanding the members of a dial plan into the branches to ring, ranked by their q values. */
module DialPlans {
  import opened Wrappers
  import opened Ordering

  // ---------- contacts ----------

  /** What the parser makes of a URI: its canonical text and its first transport parameter in lower case. */
  datatype Parsed = Parsed(text: string, transport: Option<string>)

  /** A raw Contact after stripping; parsed is None when the URI does not parse. */
  datatype Raw = Malformed | Contact(uri: string, transport: string, q: real, parsed: Option<Parsed>)

  datatype Contacts = NotAList | Listed(contacts: seq<Raw>) | Direct(parsed: Option<Parsed>) | Absent

  datatype Entry = Entry(endpoint: string, enabled: bool, contacts: Contacts)

  /** A member as named, its key in the ring policy, and the roster entry it names, if any. */
  datatype Member = Member(name: string, key: string, entry: Option<Entry>)

  datatype DialError = ContactsNotAList | InvalidContact | InvalidUri | UnsupportedTransport | DuplicateEndpoint

  datatype Row = Row(uri: string, transport: string, q: real)

  function Lower(s: string): string
  {
    seq(|s|, i requires 0 <= i < |s| => if 'A' <= s[i] <= 'Z' then ((s[i] as int) + 32) as char else s[i])
  }

  function TransportOf(p: Parsed): string
  {
    match p.transport case None => "udp" case Some(t) => t
  }

  function RowOf(raw: Raw): (r: Result<Row, DialError>)
    ensures r.Ok? ==> 0.0 <= r.value.q <= 1.0 && r.value.transport in {"udp", "tcp"}
  {
    if raw.Malformed? || raw.uri == "" || !(0.0 <= raw.q <= 1.0) then Err(InvalidContact)
    else if raw.parsed == None then Err(InvalidUri)
    else
      var transport := if raw.transport in {"udp", "tcp"} then raw.transport else TransportOf(raw.parsed.value);
      if transport in {"udp", "tcp"} then Ok(Row(raw.parsed.value.text, transport, raw.q)) else Err(UnsupportedTransport)
  }

  /** The rows of some Contacts, or the first error among them. */
  function RowsOf(raws: seq<Raw>): Result<seq<Row>, DialError>
  {
    if raws == [] then Ok([])
    else match RowOf(raws[0])
      case Err(e) => Err(e)
      case Ok(row) =>
        match RowsOf(raws[1..])
        case Err(e) => Err(e)
        case Ok(rows) => Ok([row] + rows)
  }

  function Declared(c: Contacts): Result<seq<Row>, DialError>
  {
    match c
    case NotAList => Err(ContactsNotAList)
    case Listed(raws) => RowsOf(raws)
    case Direct(None) => Err(InvalidUri)
    case Direct(Some(p)) => Ok([Row(p.text, TransportOf(p), 1.0)])
    case Absent => Ok([])
  }

  /** What a Contact must be, and what becomes of it: it has a URI that parses, a q from zero to one, and a transport,
      its own if that is one of the two or else the URI's, UDP where that names none. */
  lemma RowSays(raw: Raw)
    ensures RowOf(raw) == Err(InvalidContact) <==>
      raw.Malformed? || raw.uri == "" || raw.q < 0.0 || raw.q > 1.0
    ensures RowOf(raw) == Err(InvalidUri) <==>
      raw.Contact? && raw.uri != "" && 0.0 <= raw.q <= 1.0 && raw.parsed == None
    ensures RowOf(raw).Ok? ==>
      && raw.Contact? && raw.parsed.Some? && RowOf(raw).value.uri == raw.parsed.value.text && RowOf(raw).value.q == raw.q
      && RowOf(raw).value.transport ==
         if raw.transport == "udp" || raw.transport == "tcp" then raw.transport
         else if raw.parsed.value.transport.Some? then raw.parsed.value.transport.value else "udp"
    ensures RowOf(raw).Ok? || RowOf(raw).error == UnsupportedTransport ==>
      (RowOf(raw).Ok? <==>
        || raw.transport == "udp" || raw.transport == "tcp" || raw.parsed.value.transport == None
        || raw.parsed.value.transport.value == "udp" || raw.parsed.value.transport.value == "tcp")
  {
  }

  /** A list is read row by row, or fails with the first Contact that is not well-formed. */
  lemma {:induction false} RowsInOrder(raws: seq<Raw>, i: nat)
    requires i < |raws|
    ensures RowsOf(raws).Ok? ==>
      |RowsOf(raws).value| == |raws| && RowOf(raws[i]) == Ok(RowsOf(raws).value[i])
    ensures RowOf(raws[i]).Err? && (forall j :: 0 <= j < i ==> RowOf(raws[j]).Ok?) ==>
      RowsOf(raws) == Err(RowOf(raws[i]).error)
    ensures (forall j :: 0 <= j < |raws| ==> RowOf(raws[j]).Ok?) ==> RowsOf(raws).Ok?
    decreases |raws|
  {
    var t := raws[1..];
    assert forall j :: 0 <= j < |t| ==> t[j] == raws[j + 1];
    if t != [] {
      RowsInOrder(t, if i == 0 then 0 else i - 1);
    }
  }

  // ---------- one row per URI ----------

  /** Two characters that are the same letter in either case, or the same character. */
  predicate SameLetter(a: char, b: char)
  {
    || a == b
    || ('A' <= a <= 'Z' && b as int == a as int + 32)
    || ('A' <= b <= 'Z' && a as int == b as int + 32)
  }

  /** URIs count as the same exactly when they differ in the case of letters at most. */
  lemma SameInLowerCase(s: string, t: string)
    ensures Lower(s) == Lower(t) <==> |s| == |t| && forall i :: 0 <= i < |s| ==> SameLetter(s[i], t[i])
  {
    if Lower(s) == Lower(t) {
      forall i | 0 <= i < |s| ensures SameLetter(s[i], t[i]) {
        assert Lower(s)[i] == Lower(t)[i];
      }
    }
  }


  /** The rows whose URI, in lower case, was neither seen nor is that of an earlier row. */
  function Unique(rows: seq<Row>, seen: set<string>): seq<Row>
  {
    if rows == [] then []
    else if Lower(rows[0].uri) in seen then Unique(rows[1..], seen)
    else [rows[0]] + Unique(rows[1..], seen + {Lower(rows[0].uri)})
  }

  /** Every URI is kept once, by the first row that has it. */
  lemma {:induction false} UniqueKeepsFirst(rows: seq<Row>, seen: set<string>, row: Row)
    ensures row in Unique(rows, seen) <==>
      Lower(row.uri) !in seen && exists i :: 0 <= i < |rows| && rows[i] == row && FirstOf(rows, i)
    decreases |rows|
  {
    if rows != [] {
      var head, t := rows[0], rows[1..];
      var seen' := if Lower(head.uri) in seen then seen else seen + {Lower(head.uri)};
      UniqueKeepsFirst(t, seen', row);
      if row in Unique(t, seen') {
        var i :| 0 <= i < |t| && t[i] == row && FirstOf(t, i);
        assert rows[i + 1] == row;
        assert Lower(row.uri) != Lower(head.uri) ==> FirstOf(rows, i + 1) by {
          if Lower(row.uri) != Lower(head.uri) {
            forall j | 0 <= j < i + 1 ensures Lower(rows[j].uri) != Lower(rows[i + 1].uri) {
              assert j > 0 ==> rows[j] == t[j - 1];
            }
          }
        }
      }
      if Lower(row.uri) !in seen && exists i :: 0 <= i < |rows| && rows[i] == row && FirstOf(rows, i) {
        var i :| 0 <= i < |rows| && rows[i] == row && FirstOf(rows, i);
        if i > 0 {
          assert t[i - 1] == row;
          forall j | 0 <= j < i - 1 ensures Lower(t[j].uri) != Lower(t[i - 1].uri) {
            assert t[j] == rows[j + 1];
          }
          assert FirstOf(t, i - 1);
        }
      }
      assert FirstOf(rows, 0);
    }
  }

  ghost predicate FirstOf(rows: seq<Row>, i: nat)
    requires i < |rows|
  {
    forall j :: 0 <= j < i ==> Lower(rows[j].uri) != Lower(rows[i].uri)
  }

  ghost predicate OnePerUri(rows: seq<Row>)
  {
    forall i, j :: 0 <= i < j < |rows| ==> Lower(rows[i].uri) != Lower(rows[j].uri)
  }

  lemma {:induction false} UniqueIsOnePerUri(rows: seq<Row>, seen: set<string>)
    ensures OnePerUri(Unique(rows, seen))
    ensures forall i :: 0 <= i < |Unique(rows, seen)| ==> Lower(Unique(rows, seen)[i].uri) !in seen
    decreases |rows|
  {
    if rows != [] {
      if Lower(rows[0].uri) in seen {
        UniqueIsOnePerUri(rows[1..], seen);
      } else {
        var t := Unique(rows[1..], seen + {Lower(rows[0].uri)});
        UniqueIsOnePerUri(rows[1..], seen + {Lower(rows[0].uri)});
        assert Unique(rows, seen) == [rows[0]] + t;
      }
    }
  }

  // ---------- ranking ----------

  predicate RowLeq(a: Row, b: Row)
  {
    a.q > b.q || (a.q == b.q && StringLeq(a.uri, b.uri))
  }

  function RowOrder(): (Row, Row) -> bool
  {
    (a: Row, b: Row) => RowLeq(a, b)
  }

  lemma RowOrderIsTotal()
    ensures TotalOrder(RowOrder())
  {
    forall a: Row, b: Row ensures RowLeq(a, b) || RowLeq(b, a) {
      StringTotal(a.uri, b.uri);
    }
    forall a: Row, b: Row, c: Row | RowLeq(a, b) && RowLeq(b, c) ensures RowLeq(a, c) {
      if a.q == b.q == c.q {
        StringTransitive(a.uri, b.uri, c.uri);
      }
    }
  }

  /** The rows of an entry in the order they are rung. */
  function ContactRows(c: Contacts): Result<seq<Row>, DialError>
  {
    match Declared(c)
    case Err(e) => Err(e)
    case Ok(rows) => Ok(Sort(Unique(rows, {}), RowOrder()))
  }

  predicate Falling(rows: seq<Row>)
  {
    forall i, j :: 0 <= i < j < |rows| ==> rows[i].q >= rows[j].q
  }

  /** The rows of an entry: the first declaration of every URI and no other, each once, the highest q
      first and equal ones by URI. */
  lemma ContactRowsAreRanked(c: Contacts)
    requires ContactRows(c).Ok?
    ensures var rows, declared := ContactRows(c).value, Declared(c).value;
      && Falling(rows) && SortedBy(rows, RowOrder()) && OnePerUri(rows)
      && (forall i, j :: 0 <= i < j < |rows| && rows[i].q == rows[j].q ==> StringLeq(rows[i].uri, rows[j].uri))
      && multiset(rows) == multiset(Unique(declared, {}))
      && forall row :: row in rows <==> exists i :: 0 <= i < |declared| && declared[i] == row && FirstOf(declared, i)
  {
    var declared := Declared(c).value;
    RowOrderIsTotal();
    SortSorts(Unique(declared, {}), RowOrder());
    SortKeeps(Unique(declared, {}), RowOrder());
    SortSize(Unique(declared, {}), RowOrder());
    var rows := ContactRows(c).value;
    forall i, j | 0 <= i < j < |rows|
      ensures rows[i].q >= rows[j].q && (rows[i].q == rows[j].q ==> StringLeq(rows[i].uri, rows[j].uri))
    {
      assert RowOrder()(rows[i], rows[j]);
    }
    forall row ensures row in rows <==> exists i :: 0 <= i < |declared| && declared[i] == row && FirstOf(declared, i) {
      UniqueKeepsFirst(declared, {}, row);
    }
    SortingKeepsOnePerUri(Unique(declared, {}));
    UniqueIsOnePerUri(declared, {});
  }

  lemma RanksFall(c: Contacts)
    requires ContactRows(c).Ok?
    ensures Falling(ContactRows(c).value)
  {
    ContactRowsAreRanked(c);
  }

  lemma SortingKeepsOnePerUri(rows: seq<Row>)
    ensures OnePerUri(rows) ==> OnePerUri(Sort(rows, RowOrder()))
  {
    var sorted := Sort(rows, RowOrder());
    SortSize(rows, RowOrder());
    if OnePerUri(rows) {
      SortRepeatsNothing(rows, RowOrder());
      forall i, j | 0 <= i < j < |sorted| ensures Lower(sorted[i].uri) != Lower(sorted[j].uri) {
        assert sorted[i] in rows && sorted[j] in rows;
        var a :| 0 <= a < |rows| && rows[a] == sorted[i];
        var b :| 0 <= b < |rows| && rows[b] == sorted[j];
        assert a != b;
      }
    }
  }

  /** The different q values of ranked rows, highest first. */
  function Values(rows: seq<Row>): seq<real>
  {
    if rows == [] then []
    else
      var n := |rows| - 1;
      var t := Values(rows[..n]);
      if t != [] && t[|t| - 1] == rows[n].q then t else t + [rows[n].q]
  }

  predicate StrictlyFalling(vs: seq<real>)
  {
    forall i, j :: 0 <= i < j < |vs| ==> vs[i] > vs[j]
  }

  lemma {:induction false} ValuesOfRows(rows: seq<Row>, v: real)
    ensures v in Values(rows) <==> exists i :: 0 <= i < |rows| && rows[i].q == v
    decreases |rows|
  {
    if rows != [] {
      var n := |rows| - 1;
      var t := Values(rows[..n]);
      ValuesOfRows(rows[..n], v);
      if v in t {
        var i :| 0 <= i < |rows[..n]| && rows[..n][i].q == v;
        assert rows[i].q == v;
      }
      if exists i :: 0 <= i < |rows| && rows[i].q == v {
        var i :| 0 <= i < |rows| && rows[i].q == v;
        assert i < n ==> rows[..n][i].q == v;
      }
    }
  }

  lemma {:induction false} ValuesFall(rows: seq<Row>)
    requires Falling(rows)
    ensures StrictlyFalling(Values(rows))
    ensures rows != [] ==> Values(rows) != [] && Values(rows)[|Values(rows)| - 1] == rows[|rows| - 1].q
    decreases |rows|
  {
    if rows != [] {
      var n := |rows| - 1;
      ValuesFall(rows[..n]);
      if n > 0 {
        assert rows[..n][n - 1] == rows[n - 1];
      }
    }
  }

  /** They are the values of the rows, each once, strictly falling: the sorted set of them. */
  lemma ValuesAreSorted(rows: seq<Row>)
    requires Falling(rows)
    ensures StrictlyFalling(Values(rows))
    ensures forall v :: v in Values(rows) <==> exists i :: 0 <= i < |rows| && rows[i].q == v
  {
    ValuesFall(rows);
    forall v ensures v in Values(rows) <==> exists i :: 0 <= i < |rows| && rows[i].q == v {
      ValuesOfRows(rows, v);
    }
  }

  /** The place of a value among them. */
  function PlaceOf(vs: seq<real>, v: real): (i: nat)
    requires v in vs
    ensures i < |vs| && vs[i] == v
  {
    if vs[0] == v then 0 else 1 + PlaceOf(vs[1..], v)
  }

  /** A strictly higher value has a strictly earlier place. */
  lemma PlacesFall(vs: seq<real>, a: real, b: real)
    requires StrictlyFalling(vs) && a in vs && b in vs
    ensures a > b <==> PlaceOf(vs, a) < PlaceOf(vs, b)
    ensures a == b <==> PlaceOf(vs, a) == PlaceOf(vs, b)
  {
  }

  lemma PlaceAt(vs: seq<real>, i: nat)
    requires StrictlyFalling(vs) && i < |vs|
    ensures PlaceOf(vs, vs[i]) == i
  {
  }

  // ---------- branches ----------

  datatype Target = Target(
    candidate: string, endpoint: string, member: string, uri: string, transport: string, q: real, tier: int, order: int)

  function Digit(d: nat): char
    requires d < 10
  {
    (48 + d) as char
  }

  function Decimal(n: nat): string
  {
    if n < 10 then [Digit(n)] else Decimal(n / 10) + [Digit(n % 10)]
  }

  function Candidate(endpoint: string, n: nat): string
  {
    endpoint + ":contact:" + Decimal(n)
  }

  lemma {:induction false} DecimalDigits(n: nat)
    ensures Decimal(n) != "" && forall i :: 0 <= i < |Decimal(n)| ==> '0' <= Decimal(n)[i] <= '9'
    decreases n
  {
    if n >= 10 {
      DecimalDigits(n / 10);
    }
  }

  lemma {:induction false} DecimalInjective(a: nat, b: nat)
    requires Decimal(a) == Decimal(b)
    ensures a == b
    decreases a
  {
    var s := Decimal(a);
    DecimalDigits(a / 10);
    DecimalDigits(b / 10);
    assert s[|s| - 1] == Digit(a % 10) == Digit(b % 10);
    if a >= 10 && b >= 10 {
      assert Decimal(a / 10) == s[..|s| - 1] == Decimal(b / 10);
      DecimalInjective(a / 10, b / 10);
    }
  }

  /** What a number's digits say. */
  function Reading(digits: string): int
  {
    if digits == "" then 0 else 10 * Reading(digits[..|digits| - 1]) + (digits[|digits| - 1] as int - '0' as int)
  }

  /** A number is written in decimal, without a leading zero but for zero itself. */
  lemma {:induction false} DecimalReads(n: nat)
    ensures Reading(Decimal(n)) == n && Decimal(n) != "" && (n > 0 ==> Decimal(n)[0] != '0')
    decreases n
  {
    var d := Decimal(n);
    if n < 10 {
      assert d[..0] == "";
    } else {
      DecimalReads(n / 10);
      assert d[..|d| - 1] == Decimal(n / 10);
    }
  }

  /** A candidate id tells its endpoint and its number, whatever characters the endpoint id has. */
  lemma CandidateInjective(e: string, m: nat, f: string, n: nat)
    requires Candidate(e, m) == Candidate(f, n)
    ensures e == f && m == n
  {
    var s, c := Candidate(e, m), ":contact:";
    DecimalDigits(m);
    DecimalDigits(n);
    LastColon(e, Decimal(m), s);
    LastColon(f, Decimal(n), s);
    assert |Decimal(m)| == |Decimal(n)|;
    assert Decimal(m) == s[|s| - |Decimal(m)|..] == Decimal(n);
    DecimalInjective(m, n);
    assert e == s[..|s| - |Decimal(m)| - |c|] == f;
  }

  lemma LastColon(e: string, digits: string, s: string)
    requires s == e + ":contact:" + digits && forall i :: 0 <= i < |digits| ==> '0' <= digits[i] <= '9'
    ensures |digits| < |s| && s[|s| - |digits| - 1] == ':'
    ensures forall i :: |s| - |digits| <= i < |s| ==> s[i] != ':'
  {
    forall i | |s| - |digits| <= i < |s| ensures s[i] != ':' {
      assert s[i] == digits[i - (|s| - |digits|)];
    }
  }

  predicate Contributes(m: Member, excluded: string)
  {
    m.entry.Some? && m.entry.value.enabled && !(excluded != "" && m.entry.value.endpoint == excluded)
  }

  function BaseTier(m: Member, tiers: map<string, nat>): nat
  {
    if m.key in tiers then tiers[m.key] else 0
  }

  /** The branch for one row of the member in place i. */
  function Branch(m: Member, i: nat, base: nat, rows: seq<Row>, n: nat): Target
    requires m.entry.Some? && n < |rows| && Falling(rows)
  {
    ValuesAreSorted(rows);
    Target(Candidate(m.entry.value.endpoint, n), m.entry.value.endpoint, m.name, rows[n].uri, rows[n].transport, rows[n].q,
           base + PlaceOf(Values(rows), rows[n].q), i * 1000 + n)
  }

  function Branches(m: Member, i: nat, base: nat, rows: seq<Row>): (ts: seq<Target>)
    requires m.entry.Some? && Falling(rows)
    ensures |ts| == |rows|
  {
    seq(|rows|, n requires 0 <= n < |rows| => Branch(m, i, base, rows, n))
  }

  /** Within a member a strictly higher q rings in a strictly earlier tier, an equal q in the same one. */
  lemma TiersFollowQ(m: Member, i: nat, base: nat, rows: seq<Row>, a: nat, b: nat)
    requires m.entry.Some? && Falling(rows) && a < |rows| && b < |rows|
    ensures var ts := Branches(m, i, base, rows);
      && (ts[a].q > ts[b].q <==> ts[a].tier < ts[b].tier)
      && (ts[a].q == ts[b].q <==> ts[a].tier == ts[b].tier)
  {
    ValuesAreSorted(rows);
    PlacesFall(Values(rows), rows[a].q, rows[b].q);
  }

  /** The tiers of a member start at its base and leave none out. */
  lemma TiersAreDense(m: Member, i: nat, base: nat, rows: seq<Row>, a: nat, tier: int) returns (n: nat)
    requires m.entry.Some? && Falling(rows) && a < |rows|
    requires base <= tier <= Branches(m, i, base, rows)[a].tier
    ensures n < |rows| && Branches(m, i, base, rows)[n].tier == tier
  {
    ValuesAreSorted(rows);
    var vs := Values(rows);
    var v := vs[tier - base];
    assert v in vs;
    n :| 0 <= n < |rows| && rows[n].q == v;
    PlaceAt(vs, tier - base);
  }

  // ---------- the whole plan ----------

  /** The rows a member brings: those of its entry, if it contributes and they are well-formed. */
  function RowsFor(m: Member, excluded: string): (rows: seq<Row>)
    ensures Falling(rows)
    ensures rows != [] ==> m.entry.Some?
  {
    if Contributes(m, excluded) && ContactRows(m.entry.value.contacts).Ok? then
      RanksFall(m.entry.value.contacts);
      ContactRows(m.entry.value.contacts).value
    else []
  }

  lemma RowsAreRanked(m: Member, excluded: string)
    ensures SortedBy(RowsFor(m, excluded), RowOrder()) && OnePerUri(RowsFor(m, excluded))
  {
    if Contributes(m, excluded) && ContactRows(m.entry.value.contacts).Ok? {
      ContactRowsAreRanked(m.entry.value.contacts);
    }
  }

  predicate WellFormed(m: Member, excluded: string)
  {
    Contributes(m, excluded) ==> ContactRows(m.entry.value.contacts).Ok?
  }

  function BranchesOf(m: Member, i: nat, tiers: map<string, nat>, excluded: string): (ts: seq<Target>)
    ensures |ts| == |RowsFor(m, excluded)|
  {
    var rows := RowsFor(m, excluded);
    if rows == [] then [] else Branches(m, i, BaseTier(m, tiers), rows)
  }

  /** The branches of the members from place i on, or the error of the first that is not well-formed. */
  function Expanded(members: seq<Member>, i: nat, tiers: map<string, nat>, excluded: string): Result<seq<Target>, DialError>
    requires i <= |members|
    decreases |members| - i
  {
    if i == |members| then Ok([])
    else if !WellFormed(members[i], excluded) then Err(ContactRows(members[i].entry.value.contacts).error)
    else match Expanded(members, i + 1, tiers, excluded)
      case Err(e) => Err(e)
      case Ok(rest) => Ok(BranchesOf(members[i], i, tiers, excluded) + rest)
  }

  function Candidates(ts: seq<Target>): set<string>
  {
    set t | t in ts :: t.candidate
  }

  predicate Ambiguous(ts: seq<Target>)
  {
    |Candidates(ts)| != |ts|
  }

  predicate TargetLeq(a: Target, b: Target)
  {
    a.tier < b.tier || (a.tier == b.tier && a.order <= b.order)
  }

  function TargetOrder(): (Target, Target) -> bool
  {
    (a: Target, b: Target) => TargetLeq(a, b)
  }

  function Plan(members: seq<Member>, tiers: map<string, nat>, excluded: string): Result<seq<Target>, DialError>
  {
    match Expanded(members, 0, tiers, excluded)
    case Err(e) => Err(e)
    case Ok(ts) => if Ambiguous(ts) then Err(DuplicateEndpoint) else Ok(Sort(ts, TargetOrder()))
  }

  // ---------- what a plan contains ----------

  ghost predicate Comes(members: seq<Member>, i: nat, n: nat, tiers: map<string, nat>, excluded: string, t: Target)
    requires i < |members|
  {
    n < |BranchesOf(members[i], i, tiers, excluded)| && BranchesOf(members[i], i, tiers, excluded)[n] == t
  }

  lemma ComesFrom(members: seq<Member>, i: nat, tiers: map<string, nat>, excluded: string, t: Target)
    requires i < |members|
    ensures t in BranchesOf(members[i], i, tiers, excluded) <==> exists n :: Comes(members, i, n, tiers, excluded, t)
  {
    var b := BranchesOf(members[i], i, tiers, excluded);
    if t in b {
      var n :| 0 <= n < |b| && b[n] == t;
      assert Comes(members, i, n, tiers, excluded, t);
    }
  }

  /** Some member from place i on brings the branch. */
  ghost predicate ComesSince(members: seq<Member>, i: nat, tiers: map<string, nat>, excluded: string, t: Target)
  {
    exists a, n :: i <= a < |members| && Comes(members, a, n, tiers, excluded, t)
  }

  lemma ComesStep(members: seq<Member>, i: nat, tiers: map<string, nat>, excluded: string, t: Target)
    requires i < |members|
    ensures ComesSince(members, i, tiers, excluded, t) <==>
      t in BranchesOf(members[i], i, tiers, excluded) || ComesSince(members, i + 1, tiers, excluded, t)
  {
    ComesFrom(members, i, tiers, excluded, t);
    if ComesSince(members, i, tiers, excluded, t) {
      var a, n :| i <= a < |members| && Comes(members, a, n, tiers, excluded, t);
      if a == i {
        assert Comes(members, i, n, tiers, excluded, t);
      }
    }
    if exists n :: Comes(members, i, n, tiers, excluded, t) {
      var n :| Comes(members, i, n, tiers, excluded, t);
    }
  }

  lemma {:induction false} ExpandedHas(members: seq<Member>, i: nat, tiers: map<string, nat>, excluded: string, t: Target)
    requires i <= |members| && Expanded(members, i, tiers, excluded).Ok?
    ensures t in Expanded(members, i, tiers, excluded).value <==> ComesSince(members, i, tiers, excluded, t)
    decreases |members| - i
  {
    if i < |members| {
      ExpandedHas(members, i + 1, tiers, excluded, t);
      ComesStep(members, i, tiers, excluded, t);
      var b, rest := BranchesOf(members[i], i, tiers, excluded), Expanded(members, i + 1, tiers, excluded).value;
      assert Expanded(members, i, tiers, excluded).value == b + rest;
    }
  }

  /** No two branches of a list clash. */
  ghost predicate Apart(ts: seq<Target>, clash: (Target, Target) -> bool)
  {
    forall p, q :: 0 <= p < q < |ts| ==> !clash(ts[p], ts[q])
  }

  ghost predicate Between(a: seq<Target>, b: seq<Target>, clash: (Target, Target) -> bool)
  {
    forall p, q :: 0 <= p < |a| && 0 <= q < |b| ==> !clash(a[p], b[q])
  }

  lemma ApartAppend(a: seq<Target>, b: seq<Target>, clash: (Target, Target) -> bool)
    ensures Apart(a + b, clash) <==> Apart(a, clash) && Apart(b, clash) && Between(a, b, clash)
  {
    var s := a + b;
    if Apart(s, clash) {
      assert forall p :: 0 <= p < |a| ==> s[p] == a[p];
      forall p, q | 0 <= p < q < |b| ensures !clash(b[p], b[q]) {
        assert s[|a| + p] == b[p] && s[|a| + q] == b[q];
      }
      forall p, q | 0 <= p < |a| && 0 <= q < |b| ensures !clash(a[p], b[q]) {
        assert s[p] == a[p] && s[|a| + q] == b[q];
      }
    }
    if Apart(a, clash) && Apart(b, clash) && Between(a, b, clash) {
      forall p, q | 0 <= p < q < |s| ensures !clash(s[p], s[q]) {
        if q < |a| {
          assert s[p] == a[p] && s[q] == a[q];
        } else if p < |a| {
          assert s[p] == a[p] && s[q] == b[q - |a|];
        } else {
          assert s[p] == b[p - |a|] && s[q] == b[q - |a|];
        }
      }
    }
  }

  function SameCandidate(): (Target, Target) -> bool
  {
    (a: Target, b: Target) => a.candidate == b.candidate
  }

  function SameOrder(): (Target, Target) -> bool
  {
    (a: Target, b: Target) => a.order == b.order
  }

  /** Two members clash in some way: by a condition on their places and rows. */
  ghost predicate SameEndpoint(members: seq<Member>, a: nat, b: nat, excluded: string)
    requires a < |members| && b < |members|
  {
    && RowsFor(members[a], excluded) != [] && RowsFor(members[b], excluded) != []
    && members[a].entry.value.endpoint == members[b].entry.value.endpoint
  }

  ghost predicate Overflows(members: seq<Member>, a: nat, b: nat, excluded: string)
    requires a < |members| && b < |members|
  {
    RowsFor(members[b], excluded) != [] && |RowsFor(members[a], excluded)| > (b - a) * 1000
  }

  lemma OtherCandidates(m: Member, a: nat, n: Member, b: nat, tiers: map<string, nat>, excluded: string, p: nat, q: nat)
    requires p < |BranchesOf(m, a, tiers, excluded)| && q < |BranchesOf(n, b, tiers, excluded)|
    ensures m.entry.Some? && n.entry.Some?
    ensures m.entry.value.endpoint != n.entry.value.endpoint ==>
      BranchesOf(m, a, tiers, excluded)[p].candidate != BranchesOf(n, b, tiers, excluded)[q].candidate
  {
    if BranchesOf(m, a, tiers, excluded)[p].candidate == BranchesOf(n, b, tiers, excluded)[q].candidate {
      CandidateInjective(m.entry.value.endpoint, p, n.entry.value.endpoint, q);
    }
  }

  lemma CandidatesBetween(members: seq<Member>, a: nat, b: nat, tiers: map<string, nat>, excluded: string)
    requires a < b < |members|
    ensures Between(BranchesOf(members[a], a, tiers, excluded), BranchesOf(members[b], b, tiers, excluded), SameCandidate())
      <==> !SameEndpoint(members, a, b, excluded)
  {
    var x, y := BranchesOf(members[a], a, tiers, excluded), BranchesOf(members[b], b, tiers, excluded);
    if SameEndpoint(members, a, b, excluded) {
      assert SameCandidate()(x[0], y[0]);
    } else {
      forall p, q | 0 <= p < |x| && 0 <= q < |y| ensures !SameCandidate()(x[p], y[q]) {
        OtherCandidates(members[a], a, members[b], b, tiers, excluded, p, q);
      }
    }
  }

  lemma OrderOf(m: Member, i: nat, tiers: map<string, nat>, excluded: string, n: nat)
    requires n < |BranchesOf(m, i, tiers, excluded)|
    ensures BranchesOf(m, i, tiers, excluded)[n].order == i * 1000 + n
  {
  }

  lemma OrdersMeet(members: seq<Member>, a: nat, b: nat, tiers: map<string, nat>, excluded: string)
    requires a < b < |members| && Overflows(members, a, b, excluded)
    ensures !Between(BranchesOf(members[a], a, tiers, excluded), BranchesOf(members[b], b, tiers, excluded), SameOrder())
  {
    var x, y := BranchesOf(members[a], a, tiers, excluded), BranchesOf(members[b], b, tiers, excluded);
    OrderOf(members[a], a, tiers, excluded, (b - a) * 1000);
    OrderOf(members[b], b, tiers, excluded, 0);
    assert SameOrder()(x[(b - a) * 1000], y[0]);
  }

  lemma OrdersBetween(members: seq<Member>, a: nat, b: nat, tiers: map<string, nat>, excluded: string)
    requires a < b < |members|
    ensures Between(BranchesOf(members[a], a, tiers, excluded), BranchesOf(members[b], b, tiers, excluded), SameOrder())
      <==> !Overflows(members, a, b, excluded)
  {
    var x, y := BranchesOf(members[a], a, tiers, excluded), BranchesOf(members[b], b, tiers, excluded);
    if Overflows(members, a, b, excluded) {
      OrdersMeet(members, a, b, tiers, excluded);
    } else {
      forall p, q | 0 <= p < |x| && 0 <= q < |y| ensures !SameOrder()(x[p], y[q]) {
        OrderOf(members[a], a, tiers, excluded, p);
        OrderOf(members[b], b, tiers, excluded, q);
      }
    }
  }

  lemma BranchesApart(m: Member, i: nat, tiers: map<string, nat>, excluded: string)
    ensures Apart(BranchesOf(m, i, tiers, excluded), SameCandidate())
    ensures Apart(BranchesOf(m, i, tiers, excluded), SameOrder())
  {
    var x := BranchesOf(m, i, tiers, excluded);
    forall p, q | 0 <= p < q < |x| ensures x[p].candidate != x[q].candidate {
      if x[p].candidate == x[q].candidate {
        CandidateInjective(m.entry.value.endpoint, p, m.entry.value.endpoint, q);
      }
    }
  }

  /** A list of branches is clear of a member's when each later member's are. */
  lemma BetweenExpanded(members: seq<Member>, a: nat, i: nat, tiers: map<string, nat>, excluded: string,
                        clash: (Target, Target) -> bool)
    requires a < i <= |members| && Expanded(members, i, tiers, excluded).Ok?
    ensures Between(BranchesOf(members[a], a, tiers, excluded), Expanded(members, i, tiers, excluded).value, clash) <==>
      forall b :: i <= b < |members| ==>
        Between(BranchesOf(members[a], a, tiers, excluded), BranchesOf(members[b], b, tiers, excluded), clash)
  {
    var x, r := BranchesOf(members[a], a, tiers, excluded), Expanded(members, i, tiers, excluded).value;
    if Between(x, r, clash) {
      forall b, p, q | i <= b < |members| && 0 <= p < |x| && 0 <= q < |BranchesOf(members[b], b, tiers, excluded)|
        ensures !clash(x[p], BranchesOf(members[b], b, tiers, excluded)[q])
      {
        var t := BranchesOf(members[b], b, tiers, excluded)[q];
        assert Comes(members, b, q, tiers, excluded, t);
        ExpandedHas(members, i, tiers, excluded, t);
        var k :| 0 <= k < |r| && r[k] == t;
      }
    } else {
      var p, k :| 0 <= p < |x| && 0 <= k < |r| && clash(x[p], r[k]);
      ExpandedHas(members, i, tiers, excluded, r[k]);
      var b, n :| i <= b < |members| && Comes(members, b, n, tiers, excluded, r[k]);
      assert !Between(x, BranchesOf(members[b], b, tiers, excluded), clash);
    }
  }

  lemma {:induction false} CandidatesApart(members: seq<Member>, i: nat, tiers: map<string, nat>, excluded: string)
    requires i <= |members| && Expanded(members, i, tiers, excluded).Ok?
    ensures Apart(Expanded(members, i, tiers, excluded).value, SameCandidate()) <==>
      forall a, b :: i <= a < b < |members| ==> !SameEndpoint(members, a, b, excluded)
    decreases |members| - i
  {
    if i < |members| {
      var x, r := BranchesOf(members[i], i, tiers, excluded), Expanded(members, i + 1, tiers, excluded).value;
      CandidatesApart(members, i + 1, tiers, excluded);
      BranchesApart(members[i], i, tiers, excluded);
      ApartAppend(x, r, SameCandidate());
      BetweenExpanded(members, i, i + 1, tiers, excluded, SameCandidate());
      forall b | i + 1 <= b < |members|
        ensures Between(x, BranchesOf(members[b], b, tiers, excluded), SameCandidate())
                <==> !SameEndpoint(members, i, b, excluded)
      {
        CandidatesBetween(members, i, b, tiers, excluded);
      }
    }
  }

  lemma {:induction false} OrdersApart(members: seq<Member>, i: nat, tiers: map<string, nat>, excluded: string)
    requires i <= |members| && Expanded(members, i, tiers, excluded).Ok?
    ensures Apart(Expanded(members, i, tiers, excluded).value, SameOrder()) <==>
      forall a, b :: i <= a < b < |members| ==> !Overflows(members, a, b, excluded)
    decreases |members| - i
  {
    if i < |members| {
      var x, r := BranchesOf(members[i], i, tiers, excluded), Expanded(members, i + 1, tiers, excluded).value;
      OrdersApart(members, i + 1, tiers, excluded);
      BranchesApart(members[i], i, tiers, excluded);
      ApartAppend(x, r, SameOrder());
      BetweenExpanded(members, i, i + 1, tiers, excluded, SameOrder());
      forall b | i + 1 <= b < |members|
        ensures Between(x, BranchesOf(members[b], b, tiers, excluded), SameOrder()) <==> !Overflows(members, i, b, excluded)
      {
        OrdersBetween(members, i, b, tiers, excluded);
      }
    }
  }

  lemma CandidatesOneMore(ts: seq<Target>, t: Target)
    ensures Candidates(ts + [t]) == Candidates(ts) + {t.candidate}
    ensures t.candidate in Candidates(ts) <==> !Between(ts, [t], SameCandidate())
  {
    forall c ensures c in Candidates(ts + [t]) <==> c in Candidates(ts) + {t.candidate} {
      assert forall x :: x in ts + [t] <==> x in ts || x == t;
      assert t in ts + [t];
    }
    if t.candidate in Candidates(ts) {
      var x :| x in ts && x.candidate == t.candidate;
      var p :| 0 <= p < |ts| && ts[p] == x;
      assert SameCandidate()(ts[p], [t][0]);
    }
  }

  /** Counting different candidates tells whether any two branches share one. */
  lemma {:induction false} AmbiguousIffShared(ts: seq<Target>)
    ensures |Candidates(ts)| <= |ts|
    ensures Ambiguous(ts) <==> !Apart(ts, SameCandidate())
    decreases |ts|
  {
    if ts != [] {
      var init, t := ts[..|ts| - 1], ts[|ts| - 1];
      assert init + [t] == ts;
      AmbiguousIffShared(init);
      CandidatesOneMore(init, t);
      ApartAppend(init, [t], SameCandidate());
      if t.candidate in Candidates(init) {
        assert Candidates(ts) == Candidates(init);
      }
    }
  }

  /** A plan of well-formed members is rejected exactly when two of them that bring any Contact share an
      endpoint id. */
  lemma RejectedIffEndpointShared(members: seq<Member>, tiers: map<string, nat>, excluded: string)
    requires Expanded(members, 0, tiers, excluded).Ok?
    ensures Plan(members, tiers, excluded) == Err(DuplicateEndpoint) <==>
      exists a, b :: 0 <= a < b < |members| && SameEndpoint(members, a, b, excluded)
    ensures Plan(members, tiers, excluded).Err? ==> Plan(members, tiers, excluded).error == DuplicateEndpoint
  {
    AmbiguousIffShared(Expanded(members, 0, tiers, excluded).value);
    CandidatesApart(members, 0, tiers, excluded);
  }

  /** An accepted plan contains exactly the branches of the contributing members' rows, each once, in order
      of tier and then of place. */
  lemma PlanIsExactlyTheContacts(members: seq<Member>, tiers: map<string, nat>, excluded: string)
    requires Plan(members, tiers, excluded).Ok?
    ensures var plan := Plan(members, tiers, excluded).value;
      && SortedBy(plan, TargetOrder())
      && (forall p, q :: 0 <= p < q < |plan| ==>
            plan[p].tier < plan[q].tier || (plan[p].tier == plan[q].tier && plan[p].order <= plan[q].order))
      && (forall p, q :: 0 <= p < q < |plan| ==> plan[p].candidate != plan[q].candidate)
      && (forall t :: t in plan <==> ComesSince(members, 0, tiers, excluded, t))
  {
    var ts, plan := Expanded(members, 0, tiers, excluded).value, Plan(members, tiers, excluded).value;
    assert TotalOrder(TargetOrder());
    SortSorts(ts, TargetOrder());
    SortSize(ts, TargetOrder());
    AmbiguousIffShared(ts);
    assert Candidates(plan) == Candidates(ts);
    AmbiguousIffShared(plan);
    forall p, q | 0 <= p < q < |plan|
      ensures plan[p].tier < plan[q].tier || (plan[p].tier == plan[q].tier && plan[p].order <= plan[q].order)
    {
      assert TargetOrder()(plan[p], plan[q]);
    }
    forall p, q | 0 <= p < q < |plan| ensures plan[p].candidate != plan[q].candidate {
      assert !SameCandidate()(plan[p], plan[q]);
    }
    forall t ensures t in plan <==> ComesSince(members, 0, tiers, excluded, t) {
      ExpandedHas(members, 0, tiers, excluded, t);
    }
  }

  /** Who contributes: members that name an enabled roster entry other than the one excluded, with the rows of its
      Contacts, at the tier of their policy or else at tier zero. */
  lemma WhoContributes(m: Member, tiers: map<string, nat>, excluded: string)
    ensures RowsFor(m, excluded) ==
      if m.entry.Some? && m.entry.value.enabled && (excluded == "" || m.entry.value.endpoint != excluded)
         && ContactRows(m.entry.value.contacts).Ok?
      then ContactRows(m.entry.value.contacts).value else []
    ensures m.key in tiers ==> BaseTier(m, tiers) == tiers[m.key]
    ensures m.key !in tiers ==> BaseTier(m, tiers) == 0
  {
  }

  /** What a branch says: which Contact of which endpoint and member it rings, where, and in which order. */
  lemma BranchSays(members: seq<Member>, i: nat, n: nat, tiers: map<string, nat>, excluded: string, t: Target)
    requires i < |members| && Comes(members, i, n, tiers, excluded, t)
    ensures n < |RowsFor(members[i], excluded)| && members[i].entry.Some?
    ensures var m, row := members[i], RowsFor(members[i], excluded)[n];
      && t.endpoint == m.entry.value.endpoint && t.member == m.name && t.candidate == t.endpoint + ":contact:" + Decimal(n)
      && t.uri == row.uri && t.transport == row.transport && t.q == row.q && t.order == i * 1000 + n
      && t.tier >= BaseTier(m, tiers)
  {
  }

  /** In an accepted plan an endpoint belongs to one member. */
  lemma OneMemberPerEndpoint(members: seq<Member>, tiers: map<string, nat>, excluded: string, t: Target, u: Target)
    returns (a: nat, m: nat, n: nat)
    requires Plan(members, tiers, excluded).Ok? && t.endpoint == u.endpoint
    requires t in Plan(members, tiers, excluded).value && u in Plan(members, tiers, excluded).value
    ensures a < |members| && Comes(members, a, m, tiers, excluded, t) && Comes(members, a, n, tiers, excluded, u)
  {
    var b: nat;
    a, m := WhereFrom(members, tiers, excluded, t);
    b, n := WhereFrom(members, tiers, excluded, u);
    EndpointsApart(members, tiers, excluded, a, b);
  }

  lemma EndpointsApart(members: seq<Member>, tiers: map<string, nat>, excluded: string, a: nat, b: nat)
    requires Plan(members, tiers, excluded).Ok? && a < |members| && b < |members| && SameEndpoint(members, a, b, excluded)
    ensures a == b
  {
    RejectedIffEndpointShared(members, tiers, excluded);
    assert SameEndpoint(members, b, a, excluded);
  }

  lemma WhereFrom(members: seq<Member>, tiers: map<string, nat>, excluded: string, t: Target) returns (a: nat, n: nat)
    requires Plan(members, tiers, excluded).Ok? && t in Plan(members, tiers, excluded).value
    ensures a < |members| && Comes(members, a, n, tiers, excluded, t)
    ensures RowsFor(members[a], excluded) != [] && members[a].entry.value.endpoint == t.endpoint
  {
    PlanIsExactlyTheContacts(members, tiers, excluded);
    assert ComesSince(members, 0, tiers, excluded, t);
    a, n :| 0 <= a < |members| && Comes(members, a, n, tiers, excluded, t);
  }

  function RowAt(t: Target): Row
  {
    Row(t.uri, t.transport, t.q)
  }

  /** In an accepted plan, two branches of one endpoint: a higher q is in a strictly earlier tier and
      comes strictly earlier, an equal q is in the same tier, ordered by URI, and no URI comes twice. */
  lemma PlanFollowsQ(members: seq<Member>, tiers: map<string, nat>, excluded: string, p: nat, q: nat)
    requires Plan(members, tiers, excluded).Ok?
    requires p < q < |Plan(members, tiers, excluded).value|
    requires Plan(members, tiers, excluded).value[p].endpoint == Plan(members, tiers, excluded).value[q].endpoint
    ensures var t, u := Plan(members, tiers, excluded).value[p], Plan(members, tiers, excluded).value[q];
      && (t.q > u.q <==> t.tier < u.tier) && (t.q == u.q <==> t.tier == u.tier)
      && RowLeq(RowAt(t), RowAt(u)) && Lower(t.uri) != Lower(u.uri)
  {
    var plan := Plan(members, tiers, excluded).value;
    var t, u := plan[p], plan[q];
    var a, m, n := OneMemberPerEndpoint(members, tiers, excluded, t, u);
    PlanIsExactlyTheContacts(members, tiers, excluded);
    assert TargetOrder()(t, u) && t.candidate != u.candidate;
    var rows := RowsFor(members[a], excluded);
    RowsAreRanked(members[a], excluded);
    TiersFollowQ(members[a], a, BaseTier(members[a], tiers), rows, m, n);
    assert RowAt(t) == rows[m] && RowAt(u) == rows[n] && m != n;
    assert m < n ==> RowOrder()(rows[m], rows[n]);
  }

  /** In an accepted plan the tiers of an endpoint start at its member's base and leave none out. */
  lemma PlanTiersAreDense(members: seq<Member>, tiers: map<string, nat>, excluded: string, p: nat, a: nat, tier: int)
    returns (q: nat)
    requires Plan(members, tiers, excluded).Ok? && p < |Plan(members, tiers, excluded).value| && a < |members|
    requires Plan(members, tiers, excluded).value[p] in BranchesOf(members[a], a, tiers, excluded)
    requires BaseTier(members[a], tiers) <= tier <= Plan(members, tiers, excluded).value[p].tier
    ensures var plan := Plan(members, tiers, excluded).value;
      q < |plan| && plan[q].endpoint == plan[p].endpoint && plan[q].tier == tier
  {
    var plan, rows, base := Plan(members, tiers, excluded).value, RowsFor(members[a], excluded), BaseTier(members[a], tiers);
    var ts := Branches(members[a], a, base, rows);
    var m :| 0 <= m < |ts| && ts[m] == plan[p];
    var n := TiersAreDense(members[a], a, base, rows, m, tier);
    assert Comes(members, a, n, tiers, excluded, ts[n]);
    PlanIsExactlyTheContacts(members, tiers, excluded);
    assert ComesSince(members, 0, tiers, excluded, ts[n]);
    q :| 0 <= q < |plan| && plan[q] == ts[n];
  }

  /** Orders tell branches apart exactly when no member's Contacts reach into the thousand of a later
      contributing member; so always when every member has at most a thousand. */
  lemma OrdersAreDistinct(members: seq<Member>, tiers: map<string, nat>, excluded: string)
    requires Expanded(members, 0, tiers, excluded).Ok?
    ensures Apart(Expanded(members, 0, tiers, excluded).value, SameOrder()) <==>
      forall a, b :: 0 <= a < b < |members| ==> !Overflows(members, a, b, excluded)
    ensures (forall a :: 0 <= a < |members| ==> |RowsFor(members[a], excluded)| <= 1000) ==>
      Apart(Expanded(members, 0, tiers, excluded).value, SameOrder())
  {
    OrdersApart(members, 0, tiers, excluded);
  }

  // ---------- the plan as the program builds it ----------

  function Prepend<T>(done: seq<T>, rest: Result<seq<T>, DialError>): Result<seq<T>, DialError>
  {
    match rest case Err(e) => Err(e) case Ok(more) => Ok(done + more)
  }

  lemma PrependMore<T>(done: seq<T>, some: seq<T>, rest: Result<seq<T>, DialError>)
    ensures Prepend(done, Prepend(some, rest)) == Prepend(done + some, rest)
  {
    if rest.Ok? {
      assert done + (some + rest.value) == (done + some) + rest.value;
    }
  }

  method ReadRows(raws: seq<Raw>) returns (r: Result<seq<Row>, DialError>)
    ensures r == RowsOf(raws)
  {
    var rows: seq<Row> := [];
    var i := 0;
    assert Prepend(rows, RowsOf(raws)) == RowsOf(raws) by {
      if RowsOf(raws).Ok? {
        assert [] + RowsOf(raws).value == RowsOf(raws).value;
      }
    }
    assert raws[0..] == raws;
    while i < |raws|
      invariant 0 <= i <= |raws|
      invariant RowsOf(raws) == Prepend(rows, RowsOf(raws[i..]))
    {
      assert raws[i..][0] == raws[i] && raws[i..][1..] == raws[i + 1..];
      var row := RowOf(raws[i]);
      if row.Err? {
        return Err(row.error);
      }
      PrependMore(rows, [row.value], RowsOf(raws[i + 1..]));
      assert RowsOf(raws[i..]) == Prepend([row.value], RowsOf(raws[i + 1..]));
      rows := rows + [row.value];
      i := i + 1;
    }
    assert raws[i..] == [];
    assert rows + [] == rows;
    return Ok(rows);
  }

  method Deduplicate(rows: seq<Row>) returns (unique: seq<Row>)
    ensures unique == Unique(rows, {})
  {
    unique := [];
    var seen: set<string> := {};
    var i := 0;
    while i < |rows|
      invariant 0 <= i <= |rows|
      invariant unique + Unique(rows[i..], seen) == Unique(rows, {})
    {
      assert rows[i..][0] == rows[i] && rows[i..][1..] == rows[i + 1..];
      var identity := Lower(rows[i].uri);
      if identity !in seen {
        assert unique + ([rows[i]] + Unique(rows[i + 1..], seen + {identity}))
          == (unique + [rows[i]]) + Unique(rows[i + 1..], seen + {identity});
        seen := seen + {identity};
        unique := unique + [rows[i]];
      }
      i := i + 1;
    }
    assert rows[i..] == [];
  }

  method ReadContactRows(c: Contacts) returns (r: Result<seq<Row>, DialError>)
    ensures r == ContactRows(c)
  {
    var rows: seq<Row> := [];
    match c {
      case NotAList =>
        return Err(ContactsNotAList);
      case Listed(raws) =>
        var read := ReadRows(raws);
        if read.Err? {
          return Err(read.error);
        }
        rows := read.value;
      case Direct(parsed) =>
        if parsed == None {
          return Err(InvalidUri);
        }
        rows := [Row(parsed.value.text, TransportOf(parsed.value), 1.0)];
      case Absent =>
    }
    var unique := Deduplicate(rows);
    return Ok(Sort(unique, RowOrder()));
  }

  /** Each value of the rows with its place among them. */
  method QTiers(rows: seq<Row>) returns (tiers: map<real, nat>)
    requires Falling(rows)
    ensures forall n :: 0 <= n < |rows| ==> rows[n].q in Values(rows)
    ensures forall n :: 0 <= n < |rows| ==> rows[n].q in tiers && tiers[rows[n].q] == PlaceOf(Values(rows), rows[n].q)
  {
    ValuesAreSorted(rows);
    var vs := Values(rows);
    tiers := map[];
    var i := 0;
    while i < |vs|
      invariant 0 <= i <= |vs|
      invariant forall k :: 0 <= k < i ==> vs[k] in tiers && tiers[vs[k]] == k
    {
      tiers := tiers[vs[i] := i];
      i := i + 1;
    }
    forall n | 0 <= n < |rows| ensures rows[n].q in vs && rows[n].q in tiers && tiers[rows[n].q] == PlaceOf(vs, rows[n].q) {
      var k := PlaceOf(vs, rows[n].q);
      assert vs[k] == rows[n].q;
    }
  }

  method ExpandMember(m: Member, i: nat, base: nat, rows: seq<Row>) returns (targets: seq<Target>)
    requires m.entry.Some? && Falling(rows)
    ensures targets == Branches(m, i, base, rows)
  {
    targets := [];
    var tiers := QTiers(rows);
    var endpoint := m.entry.value.endpoint;
    var n := 0;
    while n < |rows|
      invariant 0 <= n <= |rows|
      invariant targets == Branches(m, i, base, rows)[..n]
    {
      var row := rows[n];
      targets := targets + [Target(endpoint + ":contact:" + Decimal(n), endpoint, m.name, row.uri, row.transport, row.q,
                                   base + tiers[row.q], i * 1000 + n)];
      n := n + 1;
    }
  }

  lemma ExpandedStep(done: seq<Target>, members: seq<Member>, i: nat, tiers: map<string, nat>, excluded: string)
    requires i < |members| && WellFormed(members[i], excluded)
    ensures Prepend(done, Expanded(members, i, tiers, excluded))
      == Prepend(done + BranchesOf(members[i], i, tiers, excluded), Expanded(members, i + 1, tiers, excluded))
  {
    PrependMore(done, BranchesOf(members[i], i, tiers, excluded), Expanded(members, i + 1, tiers, excluded));
  }

  lemma ExpandedFails(done: seq<Target>, members: seq<Member>, i: nat, tiers: map<string, nat>, excluded: string)
    requires i < |members| && !WellFormed(members[i], excluded)
    ensures Prepend(done, Expanded(members, i, tiers, excluded)) == Err(ContactRows(members[i].entry.value.contacts).error)
  {
  }

  lemma NothingMore(done: seq<Target>, rest: Result<seq<Target>, DialError>)
    ensures done + [] == done
    ensures Prepend([], rest) == rest
  {
    if rest.Ok? {
      assert [] + rest.value == rest.value;
    }
  }

  method MemberBranches(m: Member, i: nat, tiers: map<string, nat>, excluded: string)
    returns (r: Result<seq<Target>, DialError>)
    ensures r.Ok? <==> WellFormed(m, excluded)
    ensures r.Ok? ==> r.value == BranchesOf(m, i, tiers, excluded)
    ensures r.Err? ==> r.error == ContactRows(m.entry.value.contacts).error
  {
    if m.entry == None || !m.entry.value.enabled || (excluded != "" && m.entry.value.endpoint == excluded) {
      return Ok([]);
    }
    var rows := ReadContactRows(m.entry.value.contacts);
    if rows.Err? {
      return Err(rows.error);
    }
    RanksFall(m.entry.value.contacts);
    var targets := ExpandMember(m, i, if m.key in tiers then tiers[m.key] else 0, rows.value);
    return Ok(targets);
  }

  method ExpandMembers(members: seq<Member>, tiers: map<string, nat>, excluded: string)
    returns (r: Result<seq<Target>, DialError>)
    ensures r == Expanded(members, 0, tiers, excluded)
  {
    var targets: seq<Target> := [];
    var i := 0;
    ghost var whole := Expanded(members, 0, tiers, excluded);
    NothingMore(targets, whole);
    while i < |members|
      invariant 0 <= i <= |members|
      invariant whole == Prepend(targets, Expanded(members, i, tiers, excluded))
    {
      var more := MemberBranches(members[i], i, tiers, excluded);
      if more.Err? {
        ExpandedFails(targets, members, i, tiers, excluded);
        return Err(more.error);
      }
      ExpandedStep(targets, members, i, tiers, excluded);
      targets := targets + more.value;
      i := i + 1;
    }
    NothingMore(targets, whole);
    return Ok(targets);
  }

  /** Building the plan member by member gives the plan. */
  method BuildSipContactTargets(members: seq<Member>, tiers: map<string, nat>, excluded: string)
    returns (plan: Result<seq<Target>, DialError>)
    ensures plan == Plan(members, tiers, excluded)
  {
    var targets := ExpandMembers(members, tiers, excluded);
    if targets.Err? {
      return Err(targets.error);
    }
    if |set t | t in targets.value :: t.candidate| != |targets.value| {
      return Err(DuplicateEndpoint);
    }
    return Ok(Sort(targets.value, TargetOrder()));
  }
}
