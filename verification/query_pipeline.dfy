/** `Datasource.query`: one panel query becomes two signed fetches (the
    thing's datastreams, then their observations over the time range) and
    frames: one per entry of the observations object that holds at least
    one number, named after the datastream with that id, or "" when the id
    is not among the datastreams. */
module QueryPipeline {
  import opened Wrappers
  import opened Text
  import opened IsoTime
  import opened Signer
  import opened Models
  import opened ResourceClient

  // ---- series -------------------------------------------------------------

  const TwoTo63: int := 0x8000_0000_0000_0000

  /** Go's `int64` arithmetic: reduce into [-2^63, 2^63) modulo 2^64. */
  function Wrap64(x: int): (r: int64)
    ensures -TwoTo63 <= x < TwoTo63 ==> r as int == x
    ensures (x - r as int) % (2 * TwoTo63) == 0
  {
    var m := (x + TwoTo63) % (2 * TwoTo63);
    assert x - (m - TwoTo63) == ((x + TwoTo63) / (2 * TwoTo63)) * (2 * TwoTo63);
    (m - TwoTo63) as int64
  }

  /** `observation.PhenomenonTime * int64(time.Millisecond)`: exact for
      instants within about 292 years of the epoch, and congruent to the
      true product modulo 2^64 beyond. */
  function Nanos(ms: int64): (ns: int64)
    ensures -9_223_372_036_854 <= ms as int <= 9_223_372_036_854 ==> ns as int == ms as int * 1_000_000
    ensures (ms as int * 1_000_000 - ns as int) % (2 * TwoTo63) == 0
  {
    Wrap64(ms as int * 1_000_000)
  }

  /** One millisecond further and the product wraps to a date before 1678. */
  lemma NanosWraps()
    ensures Nanos(9_223_372_036_855) == -9_223_372_036_854_551_616
  {
  }

  /** A slot of the time column: Go's zero `time.Time` (year 1), which the
      NaN slots keep, or `time.Unix(0, ns)`. */
  datatype Stamp = ZeroTime | UnixNano(ns: int64)

  /** The slot an observation fills: a placeholder pair for NaN, otherwise
      its instant and its value. */
  function Slot(o: Observation): (Stamp, real) {
    match o.value
    case NaN => (ZeroTime, 0.0)
    case Num(r) => (UnixNano(Nanos(o.phenomenonTime)), r)
  }

  /** The time column: one slot per observation, in order. */
  function Stamps(obs: seq<Observation>): seq<Stamp> {
    seq(|obs|, i requires 0 <= i < |obs| => Slot(obs[i]).0)
  }

  /** The value column: one slot per observation, in order. */
  function Values(obs: seq<Observation>): seq<real> {
    seq(|obs|, i requires 0 <= i < |obs| => Slot(obs[i]).1)
  }

  /** How many observations carry a number. */
  function CountNumbers(obs: seq<Observation>): nat {
    if |obs| == 0 then 0
    else CountNumbers(obs[..|obs| - 1]) + (if obs[|obs| - 1].value.Num? then 1 else 0)
  }

  lemma {:induction false} CountPositive(obs: seq<Observation>)
    ensures CountNumbers(obs) > 0 <==> exists i :: 0 <= i < |obs| && obs[i].value.Num?
    decreases |obs|
  {
    if |obs| > 0 {
      var init := obs[..|obs| - 1];
      CountPositive(init);
      if exists i :: 0 <= i < |init| && init[i].value.Num? {
        var i :| 0 <= i < |init| && init[i].value.Num?;
        assert obs[i] == init[i];
      }
      if exists i :: 0 <= i < |obs| && obs[i].value.Num? {
        var i :| 0 <= i < |obs| && obs[i].value.Num?;
        if i < |init| {
          assert init[i] == obs[i];
        }
      }
    }
  }

  /** The loop of `query` that fills the two columns: zero-initialised
      columns of length `len(obs)`, NaN slots skipped, numbers counted. */
  method BuildSeries(obs: seq<Observation>) returns (t: seq<Stamp>, value: seq<real>, count: nat)
    ensures |t| == |obs| && |value| == |obs|
    ensures forall i :: 0 <= i < |obs| ==> t[i] == Slot(obs[i]).0 && value[i] == Slot(obs[i]).1
    ensures t == Stamps(obs) && value == Values(obs)
    ensures count > 0 <==> exists i :: 0 <= i < |obs| && obs[i].value.Num?
  {
    t := seq(|obs|, _ => ZeroTime);
    value := seq(|obs|, _ => 0.0);
    count := 0;
    for i := 0 to |obs|
      invariant |t| == |obs| && |value| == |obs|
      invariant forall j :: 0 <= j < i ==> t[j] == Slot(obs[j]).0 && value[j] == Slot(obs[j]).1
      invariant forall j :: i <= j < |obs| ==> t[j] == ZeroTime && value[j] == 0.0
      invariant count == CountNumbers(obs[..i])
    {
      assert obs[..i + 1][..i] == obs[..i];
      if obs[i].value.NaN? {
        continue;
      }
      t := t[i := UnixNano(Nanos(obs[i].phenomenonTime))];
      value := value[i := obs[i].value.r];
      count := count + 1;
    }
    assert obs[..|obs|] == obs;
    CountPositive(obs);
  }

  // ---- frames -------------------------------------------------------------

  /** A data frame with its two fields, `phenomenonTime` and `value`. */
  datatype Frame = Frame(name: string, phenomenonTime: seq<Stamp>, value: seq<real>)

  /** `lookup`: datastream id to name, a later datastream overwriting an
      earlier one with the same id. */
  function NameLookup(ds: seq<DataStream>): (m: map<string, string>)
    ensures m.Keys == set i | 0 <= i < |ds| :: ds[i].id
    decreases |ds|
  {
    if |ds| == 0 then map[]
    else
      var init := ds[..|ds| - 1];
      var m0 := NameLookup(init);
      assert forall i :: 0 <= i < |init| ==> init[i] == ds[i];
      m0[ds[|ds| - 1].id := ds[|ds| - 1].name]
  }

  /** The name a datastream gets is that of the last datastream with its id. */
  lemma {:induction false} NameLookupLastWins(ds: seq<DataStream>, i: nat)
    requires i < |ds|
    requires forall j :: i < j < |ds| ==> ds[j].id != ds[i].id
    ensures ds[i].id in NameLookup(ds) && NameLookup(ds)[ds[i].id] == ds[i].name
    decreases |ds|
  {
    if i < |ds| - 1 {
      var init := ds[..|ds| - 1];
      assert init[i] == ds[i];
      NameLookupLastWins(init, i);
    }
  }

  /** The ids in datastream order: the `datastreamIds` filter. */
  function Tags(ds: seq<DataStream>): (ids: seq<string>)
    ensures |ids| == |ds|
  {
    seq(|ds|, i requires 0 <= i < |ds| => ds[i].id)
  }

  /** What one entry of the observations object becomes: nothing when its
      value does not decode as a list of observations or holds no number,
      otherwise a frame named after the looked-up datastream ("" when the
      key is no known id) with one slot per observation. */
  function FrameOf(lookup: map<string, string>, decode: string -> Result<seq<Observation>, string>,
                   entry: (string, string)): (f: Option<Frame>)
    ensures f.Some? <==>
      decode(entry.1).Success? && exists i :: 0 <= i < |decode(entry.1).value| && decode(entry.1).value[i].value.Num?
    ensures f.Some? ==>
      && f.value.name == (if entry.0 in lookup then lookup[entry.0] else "")
      && |f.value.phenomenonTime| == |decode(entry.1).value|
      && |f.value.value| == |decode(entry.1).value|
      && (forall i :: 0 <= i < |decode(entry.1).value| ==>
            (decode(entry.1).value[i].value.NaN? ==> f.value.phenomenonTime[i] == ZeroTime && f.value.value[i] == 0.0))
      && (forall i :: 0 <= i < |decode(entry.1).value| ==>
            var o := decode(entry.1).value[i];
            o.value.Num? ==> f.value.phenomenonTime[i] == UnixNano(Nanos(o.phenomenonTime)) && f.value.value[i] == o.value.r)
  {
    match decode(entry.1)
    case Failure(_) => None
    case Success(obs) =>
      CountPositive(obs);
      if CountNumbers(obs) == 0 then None
      else Some(Frame(Lookup(lookup, entry.0), Stamps(obs), Values(obs)))
  }

  function AsSeq<T>(o: Option<T>): seq<T> {
    if o.Some? then [o.value] else []
  }

  /** What `f` makes of each item, in order, skipping the items it makes
      nothing of. */
  function Collect<E, F>(f: E -> Option<F>, es: seq<E>): (fs: seq<F>)
    ensures |fs| <= |es|
    decreases |es|
  {
    if |es| == 0 then [] else AsSeq(f(es[0])) + Collect(f, es[1..])
  }

  lemma {:induction false} CollectAppend<E, F>(f: E -> Option<F>, a: seq<E>, b: seq<E>)
    ensures Collect(f, a + b) == Collect(f, a) + Collect(f, b)
    decreases |a|
  {
    if |a| > 0 {
      assert (a + b)[0] == a[0];
      assert (a + b)[1..] == a[1..] + b;
      CollectAppend(f, a[1..], b);
    } else {
      assert a + b == b;
    }
  }

  lemma {:induction false} CollectMembership<E, F>(f: E -> Option<F>, es: seq<E>, x: F)
    ensures x in Collect(f, es) <==> exists k :: 0 <= k < |es| && f(es[k]) == Some(x)
    decreases |es|
  {
    if |es| > 0 {
      CollectMembership(f, es[1..], x);
      if exists k :: 0 <= k < |es[1..]| && f(es[1..][k]) == Some(x) {
        var k :| 0 <= k < |es[1..]| && f(es[1..][k]) == Some(x);
        assert es[k + 1] == es[1..][k];
      }
      if exists k :: 0 <= k < |es| && f(es[k]) == Some(x) {
        var k :| 0 <= k < |es| && f(es[k]) == Some(x);
        if k > 0 {
          assert es[1..][k - 1] == es[k];
        }
      }
    }
  }

  /** The positions of the items `f` makes `x` of. */
  ghost function Makers<E, F>(f: E -> Option<F>, es: seq<E>, x: F): set<nat> {
    set k: nat | k < |es| && f(es[k]) == Some(x)
  }

  /** Collecting up to the last item, then the last item. */
  lemma CollectSnoc<E, F>(f: E -> Option<F>, es: seq<E>)
    requires |es| > 0
    ensures Collect(f, es) == Collect(f, es[..|es| - 1]) + AsSeq(f(es[|es| - 1]))
  {
    var n := |es| - 1;
    var init, e := es[..n], es[n];
    LastApart(es);
    CollectAppend(f, init, [e]);
    CollectSingle(f, e);
  }

  /** A non-empty list is its front followed by its last item. */
  lemma LastApart<T>(s: seq<T>)
    requires |s| > 0
    ensures s == s[..|s| - 1] + [s[|s| - 1]]
  {
  }

  /** A one-item list collects what its item makes. */
  lemma CollectSingle<E, F>(f: E -> Option<F>, e: E)
    ensures Collect(f, [e]) == AsSeq(f(e))
  {
    assert [e][1..] == [];
  }

  /** The makers of `x` up to the last item, then possibly the last one. */
  lemma MakersSnoc<E, F>(f: E -> Option<F>, es: seq<E>, x: F)
    requires |es| > 0
    ensures var n := |es| - 1;
      Makers(f, es, x) == Makers(f, es[..n], x) + (if f(es[n]) == Some(x) then {n} else {})
  {
    var n := |es| - 1;
    var last: set<nat> := if f(es[n]) == Some(x) then {n} else {};
    forall k: nat ensures k in Makers(f, es, x) <==> k in Makers(f, es[..n], x) + last {
      if k < n {
        assert es[k] == es[..n][k];
      }
    }
  }

  /** Each result occurs once per item that makes it: nothing is repeated
      or lost. */
  lemma {:induction false} CollectCount<E, F>(f: E -> Option<F>, es: seq<E>, x: F)
    ensures multiset(Collect(f, es))[x] == |Makers(f, es, x)|
    decreases |es|
  {
    if |es| > 0 {
      var n := |es| - 1;
      CollectCount(f, es[..n], x);
      CollectCountSnoc(f, es, x);
      MakersCountSnoc(f, es, x);
    } else {
      MakersBelow(f, es, x);
    }
  }

  /** Counting in what is collected: the last item adds one occurrence of
      `x` exactly when it makes `x`. */
  lemma CollectCountSnoc<E, F>(f: E -> Option<F>, es: seq<E>, x: F)
    requires |es| > 0
    ensures var n := |es| - 1;
      multiset(Collect(f, es))[x]
        == multiset(Collect(f, es[..n]))[x] + (if f(es[n]) == Some(x) then 1 else 0)
  {
    var n := |es| - 1;
    CollectSnoc(f, es);
    var before, rest := Collect(f, es[..n]), AsSeq(f(es[n]));
    assert multiset(before + rest) == multiset(before) + multiset(rest);
  }

  /** Counting the makers: the last item joins them exactly when it makes
      `x`, and it is not already among them. */
  lemma MakersCountSnoc<E, F>(f: E -> Option<F>, es: seq<E>, x: F)
    requires |es| > 0
    ensures var n := |es| - 1;
      |Makers(f, es, x)| == |Makers(f, es[..n], x)| + (if f(es[n]) == Some(x) then 1 else 0)
  {
    var n := |es| - 1;
    MakersSnoc(f, es, x);
    MakersBelow(f, es[..n], x);
  }

  /** No position at or past the end of the list makes anything. */
  lemma MakersBelow<E, F>(f: E -> Option<F>, es: seq<E>, x: F)
    ensures |es| !in Makers(f, es, x)
    ensures es == [] ==> Makers(f, es, x) == {}
  {
  }

  /** An item `f` makes nothing of leaves no trace. */
  lemma CollectSkip<E, F>(f: E -> Option<F>, a: seq<E>, e: E, b: seq<E>)
    requires f(e).None?
    ensures Collect(f, a + [e] + b) == Collect(f, a + b)
  {
    assert Collect(f, [e]) == [] by {
      assert [e][1..] == [];
    }
    CollectAppend(f, a, [e]);
    CollectAppend(f, a + [e], b);
    CollectAppend(f, a, b);
  }

  /** Taking out the first item of one sequence and a matching item of
      another leaves equal multisets. */
  lemma MultisetRemove<E>(xs: seq<E>, ys: seq<E>, j: nat)
    requires multiset(xs) == multiset(ys) && |xs| > 0 && j < |ys| && ys[j] == xs[0]
    ensures multiset(xs[1..]) == multiset(ys[..j] + ys[j + 1..])
  {
    var x := xs[0];
    var rest := ys[..j] + ys[j + 1..];
    assert ys == ys[..j] + [x] + ys[j + 1..];
    assert xs == [x] + xs[1..];
    assert multiset(ys) == multiset(ys[..j]) + multiset{x} + multiset(ys[j + 1..]);
    assert multiset(xs) == multiset{x} + multiset(xs[1..]);
    assert multiset(rest) == multiset(ys[..j]) + multiset(ys[j + 1..]);
    forall z ensures multiset(xs[1..])[z] == multiset(rest)[z] {
      assert multiset(xs)[z] == multiset{x}[z] + multiset(xs[1..])[z];
      assert multiset(ys)[z] == multiset{x}[z] + multiset(rest)[z];
    }
  }

  lemma SpliceAt<E>(ys: seq<E>, j: nat)
    requires j < |ys|
    ensures ys == ys[..j] + [ys[j]] + ys[j + 1..]
  {
  }

  /** Collecting item `j` apart from the others changes only the order. */
  lemma CollectSplice<E, F>(f: E -> Option<F>, ys: seq<E>, j: nat)
    requires j < |ys|
    ensures multiset(Collect(f, ys)) == multiset(AsSeq(f(ys[j]))) + multiset(Collect(f, ys[..j] + ys[j + 1..]))
  {
    SpliceAt(ys, j);
    CollectAppend(f, ys[..j] + [ys[j]], ys[j + 1..]);
    CollectAppend(f, ys[..j], [ys[j]]);
    CollectAppend(f, ys[..j], ys[j + 1..]);
    assert [ys[j]][1..] == [];
    assert Collect(f, [ys[j]]) == AsSeq(f(ys[j]));
  }

  /** Any two orders of the same items collect the same results, up to order. */
  lemma {:induction false} CollectOrderIndependent<E, F>(f: E -> Option<F>, xs: seq<E>, ys: seq<E>)
    requires multiset(xs) == multiset(ys)
    ensures multiset(Collect(f, xs)) == multiset(Collect(f, ys))
    decreases |xs|
  {
    if |xs| == 0 {
      assert |ys| == |multiset(ys)| == 0;
    } else {
      assert xs[0] in multiset(ys);
      var j :| 0 <= j < |ys| && ys[j] == xs[0];
      MultisetRemove(xs, ys, j);
      CollectOrderIndependent(f, xs[1..], ys[..j] + ys[j + 1..]);
      CollectSplice(f, ys, j);
      assert multiset(Collect(f, xs)) == multiset(AsSeq(f(xs[0]))) + multiset(Collect(f, xs[1..]));
    }
  }

  /** `CollectMembership` for every candidate at once. */
  lemma CollectMembers<E, F>(f: E -> Option<F>, es: seq<E>)
    ensures forall x :: x in Collect(f, es) <==> exists k :: 0 <= k < |es| && f(es[k]) == Some(x)
  {
    forall x ensures x in Collect(f, es) <==> exists k :: 0 <= k < |es| && f(es[k]) == Some(x) {
      CollectMembership(f, es, x);
    }
  }

  /** The loop over the observations object, entry by entry in the order
      the map is iterated: a frame is produced exactly when some entry
      yields it (`FramesCount` adds how often). */
  function FramesOf(lookup: map<string, string>, decode: string -> Result<seq<Observation>, string>,
                    entries: seq<(string, string)>): (fs: seq<Frame>)
    ensures |fs| <= |entries|
    ensures forall f :: f in fs <==> exists k :: 0 <= k < |entries| && FrameOf(lookup, decode, entries[k]) == Some(f)
  {
    CollectMembers(e => FrameOf(lookup, decode, e), entries);
    Collect(e => FrameOf(lookup, decode, e), entries)
  }

  /** Every frame occurs exactly as often as there are entries that yield
      it, so none is repeated or lost. */
  lemma FramesCount(lookup: map<string, string>, decode: string -> Result<seq<Observation>, string>,
                    entries: seq<(string, string)>)
    ensures forall f ::
      multiset(FramesOf(lookup, decode, entries))[f]
        == |set k: nat | k < |entries| && FrameOf(lookup, decode, entries[k]) == Some(f)|
  {
    var make := e => FrameOf(lookup, decode, e);
    assert FramesOf(lookup, decode, entries) == Collect(make, entries);
    forall f ensures multiset(Collect(make, entries))[f]
      == |set k: nat | k < |entries| && FrameOf(lookup, decode, entries[k]) == Some(f)|
    {
      CollectCount(make, entries, f);
      var direct := set k: nat | k < |entries| && FrameOf(lookup, decode, entries[k]) == Some(f);
      assert Makers(make, entries, f) == direct by {
        forall k: nat ensures k in Makers(make, entries, f) <==> k in direct {
          if k < |entries| {
            assert make(entries[k]) == FrameOf(lookup, decode, entries[k]);
          }
        }
      }
    }
  }

  /** An entry that fails to decode is skipped wherever it stands, and every
      other entry is still processed. */
  lemma FramesSkipUndecodable(lookup: map<string, string>, decode: string -> Result<seq<Observation>, string>,
                              a: seq<(string, string)>, e: (string, string), b: seq<(string, string)>)
    requires decode(e.1).Failure?
    ensures FramesOf(lookup, decode, a + [e] + b) == FramesOf(lookup, decode, a + b)
  {
    assert FrameOf(lookup, decode, e) == None;
    CollectSkip(e => FrameOf(lookup, decode, e), a, e, b);
  }

  /** Go iterates a map in no fixed order; any two orders of the same
      entries give the same frames, up to order. */
  lemma FramesOrderIndependent(lookup: map<string, string>, decode: string -> Result<seq<Observation>, string>,
                               xs: seq<(string, string)>, ys: seq<(string, string)>)
    requires multiset(xs) == multiset(ys)
    ensures multiset(FramesOf(lookup, decode, xs)) == multiset(FramesOf(lookup, decode, ys))
  {
    CollectOrderIndependent(e => FrameOf(lookup, decode, e), xs, ys);
  }

  /** Two datastreams "A" (Temp) and "B" (Flow), one reading each at the
      same instant; B's is NaN. Only A becomes a frame: named Temp, one slot. */
  lemma TwoStreamsOneFrame(decode: string -> Result<seq<Observation>, string>, bodyA: string, bodyB: string)
    requires decode(bodyA) == Success([Observation(Num(10.5), 1_700_000_000_000)])
    requires decode(bodyB) == Success([Observation(NaN, 1_700_000_000_000)])
    ensures var ds := [DataStream("A", "Temp", "", UnitOfMeasurement("", "")),
                       DataStream("B", "Flow", "", UnitOfMeasurement("", ""))];
      FramesOf(NameLookup(ds), decode, [("A", bodyA), ("B", bodyB)])
        == [Frame("Temp", [UnixNano(1_700_000_000_000_000_000)], [10.5])]
  {
    var ds := [DataStream("A", "Temp", "", UnitOfMeasurement("", "")),
               DataStream("B", "Flow", "", UnitOfMeasurement("", ""))];
    var lookup := NameLookup(ds);
    assert lookup == map["A" := "Temp", "B" := "Flow"] by {
      assert ds[..1] == [ds[0]];
      assert NameLookup(ds[..1]) == map["A" := "Temp"];
    }
    var f := e => FrameOf(lookup, decode, e);
    var obsA := [Observation(Num(10.5), 1_700_000_000_000)];
    assert CountNumbers(obsA) == 1 by {
      assert obsA[..0] == [];
    }
    assert Stamps(obsA) == [UnixNano(1_700_000_000_000_000_000)];
    assert Values(obsA) == [10.5];
    assert Lookup(lookup, "A") == "Temp";
    assert f(("A", bodyA)) == Some(Frame("Temp", [UnixNano(1_700_000_000_000_000_000)], [10.5]));
    assert f(("B", bodyB)) == None;
    CollectAppend(f, [("A", bodyA)], [("B", bodyB)]);
    assert [("A", bodyA)][1..] == [] && [("B", bodyB)][1..] == [];
  }

  // ---- the handler --------------------------------------------------------

  datatype TimeRange = TimeRange(from: Time, to: Time)

  /** A panel query: its JSON model and the dashboard's time range. */
  datatype DataQuery = DataQuery(json: string, timeRange: TimeRange)

  /** A `backend.DataResponse`: a bad-request error or the frames. */
  datatype DataResponse = ErrBadRequest(message: string) | Frames(frames: seq<Frame>)

  datatype QueryRun = QueryRun(response: DataResponse, issued: seq<Request>)

  const StreamsLabels: seq<string> := ["request: ", "body: ", "unmarshal: "]

  /** The three labels differ at their first character. */
  lemma StreamsLabelsApart(k: nat, x: string)
    requires k < 3
    ensures "request: " <= StreamsLabels[k] + x <==> k == 0
    ensures "body: " <= StreamsLabels[k] + x <==> k == 1
    ensures "unmarshal: " <= StreamsLabels[k] + x <==> k == 2
  {
    var labels := StreamsLabels;
    assert labels[0] == "request: " && labels[1] == "body: " && labels[2] == "unmarshal: ";
    LabelledApart(labels, 0, k, x);
  }

  /** The error text for a failed datastreams fetch: the stage's label,
      then the failure's detail verbatim. The label tells reading the body
      and decoding apart; the three request stages share one. */
  function StreamsError<T>(s: Step<T>): (e: string)
    requires !s.Fetched?
    ensures |Detail(s)| <= |e| && e[|e| - |Detail(s)|..] == Detail(s)
    ensures "request: " <= e <==> s.Unbuilt? || s.Unsent? || s.Refused?
    ensures "body: " <= e <==> s.Unread?
    ensures "unmarshal: " <= e <==> s.Undecoded?
  {
    var labels := StreamsLabels;
    var k := match s case Unread(_) => 1 case Undecoded(_) => 2 case _ => 0;
    StreamsLabelsApart(k, Detail(s));
    labels[k] + Detail(s)
  }

  const ObservationsLabels: seq<string> :=
    ["signed request: ", "request failed: ", "reading body: ", "partial unmarshaling failed: "]

  /** The four labels differ at their third character. */
  lemma ObservationsLabelsApart(k: nat, x: string)
    requires k < 4
    ensures "signed request: " <= ObservationsLabels[k] + x <==> k == 0
    ensures "request failed: " <= ObservationsLabels[k] + x <==> k == 1
    ensures "reading body: " <= ObservationsLabels[k] + x <==> k == 2
    ensures "partial unmarshaling failed: " <= ObservationsLabels[k] + x <==> k == 3
  {
    var labels := ObservationsLabels;
    assert labels[0] == "signed request: " && labels[1] == "request failed: " && labels[2] == "reading body: ";
    assert labels[3] == "partial unmarshaling failed: ";
    LabelledApart(labels, 2, k, x);
  }

  /** The error text for a failed observations fetch: the stage's label,
      then the failure's detail verbatim. Only a transport error and a
      non-200 reply share a label. */
  function ObservationsError<T>(s: Step<T>): (e: string)
    requires !s.Fetched?
    ensures |Detail(s)| <= |e| && e[|e| - |Detail(s)|..] == Detail(s)
    ensures "signed request: " <= e <==> s.Unbuilt?
    ensures "request failed: " <= e <==> s.Unsent? || s.Refused?
    ensures "reading body: " <= e <==> s.Unread?
    ensures "partial unmarshaling failed: " <= e <==> s.Undecoded?
  {
    var labels := ObservationsLabels;
    var k := match s case Unbuilt(_) => 0 case Unread(_) => 2 case Undecoded(_) => 3 case _ => 1;
    ObservationsLabelsApart(k, Detail(s));
    labels[k] + Detail(s)
  }

  /** The datastreams fetch of a query for `thingId` (first clock reading). */
  function StreamsCall(cfg: PluginSettings, env: Env, codecs: Codecs, thingId: string): Call<seq<DataStream>> {
    Fetch(cfg, env, 0, DataStreamsPath(cfg.basePath, thingId), codecs.dataStreams)
  }

  /** The observations fetch for the datastreams `ds` (second clock reading). */
  function ObservationsCall(cfg: PluginSettings, env: Env, codecs: Codecs, range: TimeRange, ds: seq<DataStream>)
    : Call<seq<(string, string)>>
  {
    Fetch(cfg, env, 1, ObservationsPath(cfg.basePath, range.from, range.to, Tags(ds)), codecs.entries)
  }

  /** The rest of a query once its model is decoded: the datastreams fetch
      `first`, then the observations fetch `second` makes for them. */
  function Proceed(decode: string -> Result<seq<Observation>, string>, first: Call<seq<DataStream>>,
                   second: seq<DataStream> -> Call<seq<(string, string)>>): (run: QueryRun)
    ensures !first.step.Fetched? ==>
      run == QueryRun(ErrBadRequest(StreamsError(first.step)), first.issued)
    ensures first.step.Fetched? ==>
      && run.issued == first.issued + second(first.step.value).issued
      && (!second(first.step.value).step.Fetched? ==>
            run.response == ErrBadRequest(ObservationsError(second(first.step.value).step)))
      && (second(first.step.value).step.Fetched? ==>
            run.response == Frames(FramesOf(NameLookup(first.step.value), decode, second(first.step.value).step.value)))
  {
    match first.step
    case Fetched(ds) =>
      var call := second(ds);
      var issued := first.issued + call.issued;
      (match call.step
       case Fetched(entries) => QueryRun(Frames(FramesOf(NameLookup(ds), decode, entries)), issued)
       case _ => QueryRun(ErrBadRequest(ObservationsError(call.step)), issued))
    case _ => QueryRun(ErrBadRequest(StreamsError(first.step)), first.issued)
  }

  /** `Datasource.query`: decode the panel's model, fetch the thing's
      datastreams, then fetch their observations over the time range and
      turn the entries into frames. Any failure ends the query with a
      bad-request error naming the step. */
  function Query(cfg: PluginSettings, env: Env, codecs: Codecs, q: DataQuery): (run: QueryRun)
    ensures |run.issued| <= 2
    ensures codecs.queryModel(q.json).Failure? ==>
      run == QueryRun(ErrBadRequest("json unmarshal: " + codecs.queryModel(q.json).error), [])
    ensures run.response.Frames? ==> |run.issued| == 2
  {
    match codecs.queryModel(q.json)
    case Failure(err) => QueryRun(ErrBadRequest("json unmarshal: " + err), [])
    case Success(qm) =>
      Proceed(codecs.observations, StreamsCall(cfg, env, codecs, qm.thingId),
              ds => ObservationsCall(cfg, env, codecs, q.timeRange, ds))
  }

  /** The first request, when it can be built, goes to the thing's
      datastreams and is signed with the first clock reading. */
  lemma QueryFirstRequest(cfg: PluginSettings, env: Env, codecs: Codecs, q: DataQuery)
    requires codecs.queryModel(q.json).Success?
    requires env.urlCheck(cfg.serverUrl + DataStreamsPath(cfg.basePath, codecs.queryModel(q.json).value.thingId)).None?
    ensures var run := Query(cfg, env, codecs, q);
      && |run.issued| >= 1
      && run.issued[0].url == cfg.serverUrl + cfg.basePath + "/site/" + codecs.queryModel(q.json).value.thingId + "/datastreams"
      && run.issued[0].headers["Date"] == [FormatIso(env.clock(0))]
  {
    var thingId := codecs.queryModel(q.json).value.thingId;
    var first := StreamsCall(cfg, env, codecs, thingId);
    StreamsCallRequest(cfg, env, codecs, thingId);
    var second := ds => ObservationsCall(cfg, env, codecs, q.timeRange, ds);
    assert Query(cfg, env, codecs, q) == Proceed(codecs.observations, first, second);
    ProceedLeadsWithFirst(codecs.observations, first, second);
  }

  /** A buildable datastreams request is issued, to the thing's datastreams,
      signed with the first clock reading. */
  lemma StreamsCallRequest(cfg: PluginSettings, env: Env, codecs: Codecs, thingId: string)
    requires env.urlCheck(cfg.serverUrl + DataStreamsPath(cfg.basePath, thingId)).None?
    ensures var first := StreamsCall(cfg, env, codecs, thingId);
      && first.issued != []
      && first.issued[0].url == cfg.serverUrl + cfg.basePath + "/site/" + thingId + "/datastreams"
      && first.issued[0].headers["Date"] == [FormatIso(env.clock(0))]
  {
    var req := DatasourceRequest(cfg, env, 0, DataStreamsPath(cfg.basePath, thingId));
    assert req.Success?;
    assert StreamsCall(cfg, env, codecs, thingId).issued == [req.value];
  }

  /** Whatever follows, the run's first request is the datastreams one. */
  lemma ProceedLeadsWithFirst(decode: string -> Result<seq<Observation>, string>, first: Call<seq<DataStream>>,
                              second: seq<DataStream> -> Call<seq<(string, string)>>)
    requires first.issued != []
    ensures var run := Proceed(decode, first, second);
      |run.issued| >= 1 && run.issued[0] == first.issued[0]
  {
  }

  /** A failed datastreams fetch ends the query before the observations
      are requested. */
  lemma QueryStopsOnStreamsFailure(cfg: PluginSettings, env: Env, codecs: Codecs, q: DataQuery)
    requires codecs.queryModel(q.json).Success?
    requires !StreamsCall(cfg, env, codecs, codecs.queryModel(q.json).value.thingId).step.Fetched?
    ensures var first := StreamsCall(cfg, env, codecs, codecs.queryModel(q.json).value.thingId);
      var run := Query(cfg, env, codecs, q);
      && |run.issued| <= 1
      && run.issued == first.issued
      && run.response == ErrBadRequest(StreamsError(first.step))
  {
  }

  /** After the datastreams arrive the observations request follows the
      first one; it carries the range bounds in the ISO layout and the ids
      in datastream order, signed with the second clock reading. */
  lemma QueryObservationsRequest(cfg: PluginSettings, env: Env, codecs: Codecs, q: DataQuery)
    requires codecs.queryModel(q.json).Success?
    requires StreamsCall(cfg, env, codecs, codecs.queryModel(q.json).value.thingId).step.Fetched?
    ensures var first := StreamsCall(cfg, env, codecs, codecs.queryModel(q.json).value.thingId);
      var ds := first.step.value;
      var second := ObservationsCall(cfg, env, codecs, q.timeRange, ds);
      var run := Query(cfg, env, codecs, q);
      && |first.issued| == 1
      && run.issued == first.issued + second.issued
      && (second.issued != [] ==>
            && run.issued[1].url == cfg.serverUrl + ObservationsPath(cfg.basePath, q.timeRange.from, q.timeRange.to, Tags(ds))
            && run.issued[1].headers["Date"] == [FormatIso(env.clock(1))])
  {
  }

  /** The observations fetch decides the response: its failure names the
      step, its entries become the frames, named after the datastreams. */
  lemma QueryObservations(cfg: PluginSettings, env: Env, codecs: Codecs, q: DataQuery)
    requires codecs.queryModel(q.json).Success?
    requires StreamsCall(cfg, env, codecs, codecs.queryModel(q.json).value.thingId).step.Fetched?
    ensures var first := StreamsCall(cfg, env, codecs, codecs.queryModel(q.json).value.thingId);
      var ds := first.step.value;
      var second := ObservationsCall(cfg, env, codecs, q.timeRange, ds);
      var run := Query(cfg, env, codecs, q);
      && (!second.step.Fetched? ==> run.response == ErrBadRequest(ObservationsError(second.step)))
      && (second.step.Fetched? ==>
            run.response == Frames(FramesOf(NameLookup(ds), codecs.observations, second.step.value)))
  {
  }

  /** A thing without datastreams still sends the observations request,
      with an empty `datastreamIds` value. */
  lemma QueryWithoutDataStreams(cfg: PluginSettings, env: Env, codecs: Codecs, q: DataQuery)
    requires codecs.queryModel(q.json).Success?
    requires StreamsCall(cfg, env, codecs, codecs.queryModel(q.json).value.thingId).step == Fetched([])
    requires env.urlCheck(cfg.serverUrl + ObservationsPrefix(cfg.basePath, q.timeRange.from, q.timeRange.to)).None?
    ensures var run := Query(cfg, env, codecs, q);
      && |run.issued| == 2
      && run.issued[1].url == cfg.serverUrl + ObservationsPrefix(cfg.basePath, q.timeRange.from, q.timeRange.to)
  {
    ObservationsPathWithoutIds(cfg.basePath, q.timeRange.from, q.timeRange.to);
    assert Tags([]) == [];
  }
}
