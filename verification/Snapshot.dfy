/**
 * Saving the kernel's namespace: every variable is pickled under a cap, the collection is cut
 * to the longest prefix whose dump fits, and payload and manifest are replaced one after the other.
 */
module Snapshot {
  import opened Wrappers
  import opened Scanning
  import opened Sequences

  // ---------------------------------------------------------------- pickling under a cap

  /** What pickling a value writes, chunk by chunk, and whether it raises after the last chunk. */
  datatype Pickle = Pickle(chunks: seq<Bytes>, raises: bool)

  class Sink {
    var content: Bytes

    constructor ()
      ensures content == []
    {
      content := [];
    }
  }

  class CappedWriter {
    const sink: Sink
    const limit: int
    var written: nat

    constructor (sink: Sink, limit: int)
      ensures this.sink == sink && this.limit == limit && written == 0
    {
      this.sink, this.limit, written := sink, limit, 0;
    }

    method Write(chunk: Bytes) returns (ok: bool)
      modifies this, sink
      ensures ok <==> old(written) + |chunk| <= limit
      ensures written == old(written) + if ok then |chunk| else 0
      ensures sink.content == old(sink.content) + if ok then chunk else []
    {
      if written + |chunk| > limit {
        return false;
      }
      sink.content := sink.content + chunk;
      written := written + |chunk|;
      return true;
    }
  }

  /** Chunks that do not fit; a negative limit refuses even an empty chunk. */
  predicate Over(chunks: seq<Bytes>, limit: int) {
    chunks != [] && |Flat(chunks)| > limit
  }

  datatype Dump = Overflow | Raised | Dumped

  function DumpOutcome(p: Pickle, limit: int): Dump {
    if Over(p.chunks, limit) then Overflow else if p.raises then Raised else Dumped
  }

  lemma {:induction false} FlatPrefix(chunks: seq<Bytes>, k: nat)
    requires k <= |chunks|
    ensures Flat(chunks[..k]) <= Flat(chunks)
  {
    if k == 0 {
    } else {
      FlatPrefix(chunks[1..], k - 1);
      assert chunks[1..][..k - 1] == chunks[..k][1..];
    }
  }

  /** The cap is on the whole dump, whichever way it is cut into chunks. */
  method DumpTo(p: Pickle, w: CappedWriter) returns (d: Dump)
    requires w.written == 0
    modifies w, w.sink
    ensures d == DumpOutcome(p, w.limit)
    ensures d != Overflow ==> w.sink.content == old(w.sink.content) + Flat(p.chunks) && w.written == |Flat(p.chunks)|
  {
    assert p.chunks[..0] == [];
    for i := 0 to |p.chunks|
      invariant w.written == |Flat(p.chunks[..i])| && (i > 0 ==> w.written <= w.limit)
      invariant w.sink.content == old(w.sink.content) + Flat(p.chunks[..i])
    {
      FlatAppend(p.chunks[..i], p.chunks[i]);
      assert p.chunks[..i + 1] == p.chunks[..i] + [p.chunks[i]];
      var ok := w.Write(p.chunks[i]);
      if !ok {
        FlatPrefix(p.chunks, i + 1);
        return Overflow;
      }
    }
    assert p.chunks[..|p.chunks|] == p.chunks;
    return if p.raises then Raised else Dumped;
  }

  // ---------------------------------------------------------------- collecting the variables

  /** What the namespace holds under a listed name once the loop gets to it. */
  datatype Lookup = Gone | Found(pickle: Pickle)

  type Listing = seq<(string, Lookup)>

  datatype Config = Config(maxBytes: int, maxVariable: int, prune: bool, alwaysSkip: set<string>)

  const DEFAULT_MAX_BYTES: int := 256 * 1024 * 1024
  const DEFAULT_MAX_VARIABLE_BYTES: int := 16 * 1024 * 1024
  const ALWAYS_SKIPPED: set<string> :=
    {"rlm", "mcp", "bash", "asyncio", "In", "Out", "get_ipython", "exit", "quit", "open"}

  /** An optional field of a request: not given, of the right type, or anything else, null included. */
  datatype Field<T> = Absent | Given(value: T) | Malformed

  datatype SnapshotRequest = SnapshotRequest(maxBytes: Field<int>, maxVariable: Field<int>, prune: Field<bool>)

  function Or<T>(field: Field<T>, default: T): T {
    if field.Given? then field.value else default
  }

  /** The configuration of a request; everything below holds for any caps and any skipped names. */
  function ConfigOf(req: SnapshotRequest): Config {
    Config(Or(req.maxBytes, DEFAULT_MAX_BYTES), Or(req.maxVariable, DEFAULT_MAX_VARIABLE_BYTES), Or(req.prune, false),
           ALWAYS_SKIPPED)
  }

  datatype Item = Item(name: string, blob: Bytes)

  datatype Reason = DeletedMeanwhile | OverVariableCap | OverTotalCap | Unpicklable

  datatype Skip = Skip(name: string, reason: Reason)

  datatype Collection = Collection(items: seq<Item>, skipped: seq<Skip>, oversized: seq<string>, total: nat)

  predicate IsCandidate(name: string, cfg: Config) {
    !(name != "" && name[0] == '_') && name !in cfg.alwaysSkip
  }

  datatype Verdict = Keep(blob: Bytes) | Leave(reason: Reason, oversized: bool)

  function Judge(look: Lookup, remaining: int, cfg: Config): Verdict {
    if look.Gone? then Leave(DeletedMeanwhile, false)
    else
      var p := look.pickle;
      var limit := if cfg.prune || cfg.maxVariable <= remaining then cfg.maxVariable else remaining;
      match DumpOutcome(p, limit)
      case Overflow =>
        if !cfg.prune && remaining < cfg.maxVariable then Leave(OverTotalCap, false) else Leave(OverVariableCap, true)
      case Raised => Leave(Unpicklable, false)
      case Dumped => if |Flat(p.chunks)| > remaining then Leave(OverTotalCap, false) else Keep(Flat(p.chunks))
  }

  /**
   * A value is kept exactly when it pickles and respects both caps; when pruning, it is oversized
   * exactly when it breaks its own.
   */
  lemma JudgeExactly(look: Lookup, remaining: int, cfg: Config)
    requires look.Found? ==> look.pickle.chunks != []
    ensures
      var v := Judge(look, remaining, cfg);
      && (v.Keep? <==> look.Found? && !look.pickle.raises
                       && |Flat(look.pickle.chunks)| <= cfg.maxVariable && |Flat(look.pickle.chunks)| <= remaining)
      && (v.Keep? ==> v.blob == Flat(look.pickle.chunks))
      && (v.Leave? && v.oversized ==> v.reason == OverVariableCap)
      && (cfg.prune ==> (v.Leave? && v.oversized <==> look.Found? && |Flat(look.pickle.chunks)| > cfg.maxVariable))
  {
  }

  function Extended(c: Collection, name: string, v: Verdict): Collection {
    match v
    case Keep(blob) => c.(items := c.items + [Item(name, blob)], total := c.total + |blob|)
    case Leave(reason, oversized) =>
      c.(skipped := c.skipped + [Skip(name, reason)], oversized := c.oversized + if oversized then [name] else [])
  }

  function Collect(listing: Listing, cfg: Config): Collection {
    if listing == [] then Collection([], [], [], 0)
    else WithLast(Collect(listing[..|listing| - 1], cfg), listing[|listing| - 1], cfg)
  }

  function WithLast(c: Collection, last: (string, Lookup), cfg: Config): Collection {
    if IsCandidate(last.0, cfg) then Extended(c, last.0, Judge(last.1, cfg.maxBytes - c.total, cfg)) else c
  }

  /** What is decided about the k-th listed name. */
  function VerdictAt(listing: Listing, cfg: Config, k: nat): Verdict
    requires k < |listing|
  {
    Judge(listing[k].1, cfg.maxBytes - Collect(listing[..k], cfg).total, cfg)
  }

  /** Pickles one value into a fresh buffer. */
  method JudgeValue(look: Lookup, total: nat, cfg: Config) returns (v: Verdict)
    ensures v == Judge(look, cfg.maxBytes - total, cfg)
  {
    if look.Gone? {
      return Leave(DeletedMeanwhile, false);
    }
    var remaining := cfg.maxBytes - total;
    var limit := if cfg.prune then cfg.maxVariable else Min(cfg.maxVariable, remaining);
    var buffer := new Sink();
    var writer := new CappedWriter(buffer, limit);
    var d := DumpTo(look.pickle, writer);
    if d == Overflow {
      if !cfg.prune && remaining < cfg.maxVariable {
        return Leave(OverTotalCap, false);
      }
      return Leave(OverVariableCap, true);
    }
    if d == Raised {
      return Leave(Unpicklable, false);
    }
    if total + |buffer.content| > cfg.maxBytes {
      return Leave(OverTotalCap, false);
    }
    return Keep(buffer.content);
  }

  method CollectNames(listing: Listing, cfg: Config) returns (c: Collection)
    ensures c == Collect(listing, cfg)
  {
    c := Collection([], [], [], 0);
    for i := 0 to |listing|
      invariant c == Collect(listing[..i], cfg)
    {
      assert listing[..i + 1][..i] == listing[..i];
      var (name, look) := listing[i];
      if !IsCandidate(name, cfg) {
        continue;
      }
      var v := JudgeValue(look, c.total, cfg);
      c := Record(c, name, v);
    }
    assert listing[..|listing|] == listing;
  }

  method Record(before: Collection, name: string, v: Verdict) returns (c: Collection)
    ensures c == Extended(before, name, v)
  {
    c := before;
    match v {
      case Keep(blob) =>
        c := c.(items := c.items + [Item(name, blob)]);
        c := c.(total := c.total + |blob|);
      case Leave(reason, oversized) =>
        c := c.(skipped := c.skipped + [Skip(name, reason)]);
        if oversized {
          c := c.(oversized := c.oversized + [name]);
        }
    }
  }

  function Min(a: int, b: int): int {
    if a <= b then a else b
  }

  // ---------------------------------------------------------------- what a collection accounts for

  function ItemNames(items: seq<Item>): set<string> {
    set i | i in items :: i.name
  }

  function SkipNames(skipped: seq<Skip>): set<string> {
    set s | s in skipped :: s.name
  }

  function Candidates(listing: Listing, cfg: Config): set<string> {
    set l | l in listing && IsCandidate(l.0, cfg) :: l.0
  }

  /** The names of a dictionary: no name is listed twice. */
  predicate Distinct(listing: Listing) {
    forall i, j :: 0 <= i < j < |listing| ==> listing[i].0 != listing[j].0
  }

  lemma ItemNamesAppend(front: seq<Item>, back: seq<Item>)
    ensures ItemNames(front + back) == ItemNames(front) + ItemNames(back)
  {
  }

  lemma SkipNamesAppend(front: seq<Skip>, back: seq<Skip>)
    ensures SkipNames(front + back) == SkipNames(front) + SkipNames(back)
  {
  }

  lemma CandidatesAppend(listing: Listing, cfg: Config)
    requires listing != []
    ensures
      var (name, _) := listing[|listing| - 1];
      Candidates(listing, cfg) ==
        Candidates(listing[..|listing| - 1], cfg) + if IsCandidate(name, cfg) then {name} else {}
  {
    assert listing == listing[..|listing| - 1] + [listing[|listing| - 1]];
  }

  lemma LastNameIsNew(listing: Listing, cfg: Config)
    requires Distinct(listing) && listing != []
    ensures listing[|listing| - 1].0 !in Candidates(listing[..|listing| - 1], cfg)
  {
  }

  /** Every one of the names is kept or skipped, and never both. */
  predicate Accounts(c: Collection, names: set<string>) {
    && ItemNames(c.items) + SkipNames(c.skipped) == names
    && ItemNames(c.items) !! SkipNames(c.skipped)
  }

  lemma ExtendedNames(c: Collection, name: string, v: Verdict)
    ensures ItemNames(Extended(c, name, v).items) == ItemNames(c.items) + if v.Keep? then {name} else {}
    ensures SkipNames(Extended(c, name, v).skipped) == SkipNames(c.skipped) + if v.Leave? then {name} else {}
  {
    if v.Keep? {
      ItemNamesAppend(c.items, [Item(name, v.blob)]);
    } else {
      SkipNamesAppend(c.skipped, [Skip(name, v.reason)]);
    }
  }

  lemma ExtendedAccounts(c: Collection, name: string, v: Verdict, names: set<string>)
    requires Accounts(c, names) && name !in names
    ensures Accounts(Extended(c, name, v), names + {name})
  {
    ExtendedNames(c, name, v);
  }

  lemma WithLastAccounts(c: Collection, last: (string, Lookup), cfg: Config, names: set<string>)
    requires Accounts(c, names) && last.0 !in names
    ensures Accounts(WithLast(c, last, cfg), names + if IsCandidate(last.0, cfg) then {last.0} else {})
  {
    if IsCandidate(last.0, cfg) {
      ExtendedAccounts(c, last.0, Judge(last.1, cfg.maxBytes - c.total, cfg), names);
    } else {
      assert names + {} == names;
    }
  }

  lemma {:induction false} CollectPartitions(listing: Listing, cfg: Config)
    requires Distinct(listing)
    ensures Accounts(Collect(listing, cfg), Candidates(listing, cfg))
  {
    if listing == [] {
    } else {
      var front := listing[..|listing| - 1];
      CollectPartitions(front, cfg);
      CandidatesAppend(listing, cfg);
      LastNameIsNew(listing, cfg);
      WithLastAccounts(Collect(front, cfg), listing[|listing| - 1], cfg, Candidates(front, cfg));
    }
  }

  /** And none of them twice. */
  lemma {:induction false} CollectNeverTwice(listing: Listing, cfg: Config)
    requires Distinct(listing)
    ensures |Collect(listing, cfg).items| + |Collect(listing, cfg).skipped| == |Candidates(listing, cfg)|
  {
    if listing == [] {
    } else {
      CollectNeverTwice(listing[..|listing| - 1], cfg);
      CandidatesAppend(listing, cfg);
      LastNameIsNew(listing, cfg);
    }
  }

  function TotalSize(items: seq<Item>): nat {
    if items == [] then 0 else TotalSize(items[..|items| - 1]) + |items[|items| - 1].blob|
  }

  predicate RespectsCaps(c: Collection, cfg: Config) {
    && c.total == TotalSize(c.items)
    && (c.items != [] ==> c.total <= cfg.maxBytes)
    && forall i :: i in c.items ==> |i.blob| <= cfg.maxVariable
  }

  lemma WithLastRespectsCaps(c: Collection, last: (string, Lookup), cfg: Config)
    requires RespectsCaps(c, cfg) && (last.1.Found? ==> last.1.pickle.chunks != [])
    ensures RespectsCaps(WithLast(c, last, cfg), cfg)
  {
    var v := Judge(last.1, cfg.maxBytes - c.total, cfg);
    JudgeExactly(last.1, cfg.maxBytes - c.total, cfg);
    hide Judge, DumpOutcome, Flat;
    if v.Keep? {
      assert (c.items + [Item(last.0, v.blob)])[..|c.items|] == c.items;
    }
  }

  /** The kept values respect both caps. */
  lemma {:induction false} CollectRespectsCaps(listing: Listing, cfg: Config)
    requires forall l :: l in listing && l.1.Found? ==> l.1.pickle.chunks != []
    ensures RespectsCaps(Collect(listing, cfg), cfg)
  {
    if listing == [] {
    } else {
      var front, last := listing[..|listing| - 1], listing[|listing| - 1];
      assert last in listing;
      CollectRespectsCaps(front, cfg);
      WithLastRespectsCaps(Collect(front, cfg), last, cfg);
    }
  }

  /** What a collection says about one name. */
  predicate Decided(c: Collection, name: string, v: Verdict) {
    && (name in ItemNames(c.items) <==> v.Keep?)
    && (v.Keep? ==> Item(name, v.blob) in c.items)
    && (v.Leave? ==> Skip(name, v.reason) in c.skipped)
    && (name in c.oversized <==> v.Leave? && v.oversized)
  }

  lemma WithLastDecides(c: Collection, last: (string, Lookup), cfg: Config)
    requires IsCandidate(last.0, cfg) && last.0 !in ItemNames(c.items) && last.0 !in c.oversized
    ensures Decided(WithLast(c, last, cfg), last.0, Judge(last.1, cfg.maxBytes - c.total, cfg))
  {
    ExtendedNames(c, last.0, Judge(last.1, cfg.maxBytes - c.total, cfg));
  }

  lemma WithLastKeepsDecisions(c: Collection, name: string, v: Verdict, last: (string, Lookup), cfg: Config)
    requires name != last.0 && Decided(c, name, v)
    ensures Decided(WithLast(c, last, cfg), name, v)
  {
    ExtendedNames(c, last.0, Judge(last.1, cfg.maxBytes - c.total, cfg));
  }

  /** What is decided about a name is not revised later, and depends on nothing but the bytes kept before it. */
  lemma {:induction false} CollectDecidesInTurn(listing: Listing, cfg: Config, k: nat)
    requires Distinct(listing) && k < |listing| && IsCandidate(listing[k].0, cfg)
    ensures Decided(Collect(listing, cfg), listing[k].0, VerdictAt(listing, cfg, k))
  {
    var front := listing[..|listing| - 1];
    var last := listing[|listing| - 1];
    var c := Collect(front, cfg);
    if k == |listing| - 1 {
      UndecidedBefore(listing, cfg);
      assert listing[..k] == front;
      WithLastDecides(c, last, cfg);
    } else {
      CollectDecidesInTurn(front, cfg, k);
      assert front[..k] == listing[..k];
      WithLastKeepsDecisions(c, listing[k].0, VerdictAt(listing, cfg, k), last, cfg);
    }
  }

  lemma UndecidedBefore(listing: Listing, cfg: Config)
    requires Distinct(listing) && listing != []
    ensures
      var c, name := Collect(listing[..|listing| - 1], cfg), listing[|listing| - 1].0;
      name !in ItemNames(c.items) && name !in c.oversized
  {
    CollectPartitions(listing[..|listing| - 1], cfg);
    LastNameIsNew(listing, cfg);
    OversizedAreSkipped(listing[..|listing| - 1], cfg);
  }

  /** An oversized name is skipped for breaking its own cap. */
  lemma {:induction false} OversizedAreSkipped(listing: Listing, cfg: Config)
    ensures forall n :: n in Collect(listing, cfg).oversized ==>
              Skip(n, OverVariableCap) in Collect(listing, cfg).skipped
    ensures forall n :: n in Collect(listing, cfg).oversized ==> n in SkipNames(Collect(listing, cfg).skipped)
  {
    if listing == [] {
    } else {
      OversizedAreSkipped(listing[..|listing| - 1], cfg);
    }
    forall n | n in Collect(listing, cfg).oversized
      ensures n in SkipNames(Collect(listing, cfg).skipped)
    {
      assert Skip(n, OverVariableCap) in Collect(listing, cfg).skipped;
    }
  }

  // ---------------------------------------------------------------- cutting the collection to size

  /** The chunks that pickling the collected dictionary writes. */
  type Pickler = seq<Item> -> seq<Bytes>

  /** A dump is never empty, and one more entry never makes it shorter. */
  ghost predicate GrowsWithItems(pickle: Pickler) {
    && (forall items :: pickle(items) != [])
    && forall items: seq<Item>, item: Item :: |Flat(pickle(items))| <= |Flat(pickle(items + [item]))|
  }

  predicate Fits(items: seq<Item>, pickle: Pickler, maxBytes: int) {
    |Flat(pickle(items))| <= maxBytes
  }

  lemma {:induction false} LongerPrefixIsLarger(items: seq<Item>, pickle: Pickler, j: nat, k: nat)
    requires GrowsWithItems(pickle) && j <= k <= |items|
    ensures |Flat(pickle(items[..j]))| <= |Flat(pickle(items[..k]))|
    decreases k
  {
    if j == k {
    } else {
      LongerPrefixIsLarger(items, pickle, j, k - 1);
      assert items[..k] == items[..k - 1] + [items[k - 1]];
    }
  }

  /** The longest prefix that fits, looked for one by one from the whole down. */
  function LongestFit(items: seq<Item>, k: nat, pickle: Pickler, maxBytes: int): (r: nat)
    requires k <= |items|
    ensures r <= k
  {
    if k == 0 || Fits(items[..k], pickle, maxBytes) then k else LongestFit(items, k - 1, pickle, maxBytes)
  }

  /** A prefix that fits while the next one does not is the longest that fits. */
  lemma {:induction false} LongestFitExactly(items: seq<Item>, k: nat, pickle: Pickler, maxBytes: int, low: nat)
    requires GrowsWithItems(pickle) && low <= k <= |items| && Fits(items[..low], pickle, maxBytes)
    requires low < k ==> !Fits(items[..low + 1], pickle, maxBytes)
    ensures LongestFit(items, k, pickle, maxBytes) == low
    ensures forall j :: low < j <= k ==> !Fits(items[..j], pickle, maxBytes)
  {
    if low == k {
    } else {
      LongestFitExactly(items, k - 1, pickle, maxBytes, low);
      LongerPrefixIsLarger(items, pickle, low + 1, k);
    }
  }

  /** Into an empty temporary file. */
  method DumpToTemp(temp: Sink, candidate: seq<Item>, pickle: Pickler, maxBytes: int) returns (written: Option<nat>)
    requires pickle(candidate) != [] && temp.content == []
    modifies temp
    ensures written.Some? <==> Fits(candidate, pickle, maxBytes)
    ensures written.Some? ==> temp.content == Flat(pickle(candidate)) && written.value == |temp.content|
  {
    var writer := new CappedWriter(temp, maxBytes);
    var d := DumpTo(Pickle(pickle(candidate), false), writer);
    if d == Overflow {
      return None;
    }
    return Some(writer.written);
  }

  method RedumpToTemp(temp: Sink, candidate: seq<Item>, pickle: Pickler, maxBytes: int) returns (written: Option<nat>)
    requires pickle(candidate) != []
    modifies temp
    ensures written.Some? <==> Fits(candidate, pickle, maxBytes)
    ensures written.Some? ==> temp.content == Flat(pickle(candidate)) && written.value == |temp.content|
  {
    temp.content := [];
    written := DumpToTemp(temp, candidate, pickle, maxBytes);
  }

  /** The binary search over prefix lengths; every probe overwrites the temporary file. */
  method Search(temp: Sink, items: seq<Item>, pickle: Pickler, maxBytes: int) returns (low: nat)
    requires GrowsWithItems(pickle) && Fits([], pickle, maxBytes) && !Fits(items, pickle, maxBytes)
    modifies temp
    ensures low == LongestFit(items, |items|, pickle, maxBytes)
  {
    assert items[..0] == [] && items[..|items|] == items;
    low := 0;
    var high := |items| - 1;
    while low < high
      invariant 0 <= low <= high < |items|
      invariant Fits(items[..low], pickle, maxBytes) && !Fits(items[..high + 1], pickle, maxBytes)
    {
      var mid := (low + high + 1) / 2;
      var attempt := RedumpToTemp(temp, items[..mid], pickle, maxBytes);
      if attempt.None? {
        high := mid - 1;
      } else {
        low := mid;
      }
    }
    LongestFitExactly(items, |items|, pickle, maxBytes, low);
  }

  /**
   * Stages the payload: the temporary file ends up holding exactly the longest prefix that
   * fits, even though the search may have left an overflowing attempt in it.
   */
  method StagePayload(temp: Sink, items: seq<Item>, pickle: Pickler, maxBytes: int)
    returns (written: Option<nat>, kept: nat)
    requires GrowsWithItems(pickle) && temp.content == []
    modifies temp
    ensures written.Some? <==> Fits([], pickle, maxBytes)
    ensures written.Some? ==> kept == LongestFit(items, |items|, pickle, maxBytes)
    ensures written.Some? ==> temp.content == Flat(pickle(items[..kept])) && written.value == |temp.content|
  {
    assert items[..0] == [] && items[..|items|] == items;
    LongerPrefixIsLarger(items, pickle, 0, |items|);
    written := DumpToTemp(temp, items, pickle, maxBytes);
    if written.Some? {
      return written, |items|;
    }
    var empty := RedumpToTemp(temp, [], pickle, maxBytes);
    if empty.None? {
      return None, 0;
    }
    kept := Search(temp, items, pickle, maxBytes);
    LongestFitFits(items, |items|, pickle, maxBytes);
    written := RedumpToTemp(temp, items[..kept], pickle, maxBytes);
  }

  // ---------------------------------------------------------------- committing

  datatype Manifest = Manifest(saved: set<string>, skipped: seq<Skip>, pruned: set<string>, bytes: nat)

  /** The first thing that goes wrong, if any. */
  datatype Trouble =
    | Nothing
    | NoPickler | NoDirectory | PayloadStaging | ManifestStaging | InterruptedStaging
    | PayloadReplace | ManifestReplace

  datatype Reply = Escaped | Error | Saved(manifest: Manifest)

  datatype TempFile = PayloadTemp | ManifestTemp

  class Directory {
    var payload: Option<Bytes>
    var manifest: Option<Manifest>
    var temps: set<TempFile>
  }

  class Namespace {
    var names: set<string>

    method PopAll(pruned: set<string>)
      modifies this
      ensures names == old(names) - pruned
    {
      var left := pruned;
      while left != {}
        invariant left <= pruned && names == old(names) - (pruned - left)
      {
        var name :| name in left;
        names := names - {name};
        left := left - {name};
      }
    }
  }

  function Trimmed(items: seq<Item>): seq<Skip> {
    seq(|items|, i requires 0 <= i < |items| => Skip(items[i].name, OverTotalCap))
  }

  /** The items whose dump is committed. */
  function Kept(listing: Listing, cfg: Config, pickle: Pickler): (kept: seq<Item>) {
    var items := Collect(listing, cfg).items;
    items[..LongestFit(items, |items|, pickle, cfg.maxBytes)]
  }

  /** The manifest of a successful snapshot; `bound` are the names still in the namespace when it is written. */
  function ManifestOf(listing: Listing, cfg: Config, pickle: Pickler, bound: set<string>): Manifest {
    var c := Collect(listing, cfg);
    var kept := Kept(listing, cfg, pickle);
    Manifest(ItemNames(kept), c.skipped + Trimmed(c.items[|kept|..]),
             if cfg.prune then set n | n in c.oversized && n in bound else {}, |Flat(pickle(kept))|)
  }

  lemma TrimmedNames(items: seq<Item>)
    ensures SkipNames(Trimmed(items)) == ItemNames(items)
  {
    forall i | i in items
      ensures i.name in SkipNames(Trimmed(items))
    {
      var k :| 0 <= k < |items| && items[k] == i;
      assert Trimmed(items)[k] in Trimmed(items);
    }
  }

  predicate UniqueNames(items: seq<Item>) {
    forall i, j :: 0 <= i < j < |items| ==> items[i].name != items[j].name
  }

  lemma {:induction false} CollectHasUniqueNames(listing: Listing, cfg: Config)
    requires Distinct(listing)
    ensures UniqueNames(Collect(listing, cfg).items)
  {
    if listing == [] {
    } else {
      var front := listing[..|listing| - 1];
      var c := Collect(front, cfg);
      CollectHasUniqueNames(front, cfg);
      LastNameIsNew(listing, cfg);
      CollectPartitions(front, cfg);
      forall i | 0 <= i < |c.items|
        ensures c.items[i].name in Candidates(front, cfg)
      {
        assert c.items[i] in c.items;
      }
    }
  }

  lemma SplitNames(items: seq<Item>, k: nat)
    requires UniqueNames(items) && k <= |items|
    ensures ItemNames(items[..k]) + ItemNames(items[k..]) == ItemNames(items)
    ensures ItemNames(items[..k]) !! ItemNames(items[k..])
  {
    ItemNamesAppend(items[..k], items[k..]);
    assert items == items[..k] + items[k..];
  }

  /** Every candidate is in exactly one of saved and skipped. */
  lemma ManifestPartitions(listing: Listing, cfg: Config, pickle: Pickler, bound: set<string>)
    requires Distinct(listing)
    ensures
      var m := ManifestOf(listing, cfg, pickle, bound);
      m.saved + SkipNames(m.skipped) == Candidates(listing, cfg) && m.saved !! SkipNames(m.skipped)
  {
    var c := Collect(listing, cfg);
    var k := |Kept(listing, cfg, pickle)|;
    CollectPartitions(listing, cfg);
    CollectHasUniqueNames(listing, cfg);
    SplitNames(c.items, k);
    TrimmedNames(c.items[k..]);
    SkipNamesAppend(c.skipped, Trimmed(c.items[k..]));
  }

  /** What is pruned was asked to be, was skipped for its own size, was still bound, and is not saved. */
  lemma PrunedIsNeverSaved(listing: Listing, cfg: Config, pickle: Pickler, bound: set<string>, name: string)
    requires Distinct(listing) && name in ManifestOf(listing, cfg, pickle, bound).pruned
    ensures cfg.prune && name in bound
    ensures Skip(name, OverVariableCap) in ManifestOf(listing, cfg, pickle, bound).skipped
    ensures name !in ManifestOf(listing, cfg, pickle, bound).saved
  {
    OversizedAreSkipped(listing, cfg);
    ManifestPartitions(listing, cfg, pickle, bound);
    var skipped := ManifestOf(listing, cfg, pickle, bound).skipped;
    assert Skip(name, OverVariableCap) in Collect(listing, cfg).skipped;
    assert Skip(name, OverVariableCap) in skipped;
    assert name in SkipNames(skipped);
  }

  /** The saved items are the longest prefix of the collected ones whose dump fits. */
  lemma KeptIsLongestThatFits(listing: Listing, cfg: Config, pickle: Pickler)
    requires Fits([], pickle, cfg.maxBytes)
    ensures
      var items, kept := Collect(listing, cfg).items, Kept(listing, cfg, pickle);
      && kept <= items
      && Fits(kept, pickle, cfg.maxBytes)
      && forall j :: |kept| < j <= |items| ==> !Fits(items[..j], pickle, cfg.maxBytes)
  {
    var items := Collect(listing, cfg).items;
    LongestFitFits(items, |items|, pickle, cfg.maxBytes);
  }

  lemma {:induction false} LongestFitFits(items: seq<Item>, k: nat, pickle: Pickler, maxBytes: int)
    requires k <= |items| && Fits([], pickle, maxBytes)
    ensures Fits(items[..LongestFit(items, k, pickle, maxBytes)], pickle, maxBytes)
    ensures forall j :: LongestFit(items, k, pickle, maxBytes) < j <= k ==> !Fits(items[..j], pickle, maxBytes)
  {
    if k == 0 {
      assert items[..0] == [];
    } else if Fits(items[..k], pickle, maxBytes) {
    } else {
      LongestFitFits(items, k - 1, pickle, maxBytes);
    }
  }

  /** The items cut off the end are skipped after all. */
  method SkipTrimmed(skipped: seq<Skip>, items: seq<Item>) returns (all: seq<Skip>)
    ensures all == skipped + Trimmed(items)
  {
    all := skipped;
    for i := 0 to |items|
      invariant all == skipped + Trimmed(items[..i])
    {
      all := all + [Skip(items[i].name, OverTotalCap)];
    }
    assert items[..|items|] == items;
  }

  /** Builds payload and manifest in temporary files; nothing visible changes. */
  method Stage(listing: Listing, cfg: Config, pickle: Pickler, ns: Namespace)
    returns (staged: Option<(Bytes, Manifest)>)
    requires GrowsWithItems(pickle)
    ensures staged.Some? <==> Fits([], pickle, cfg.maxBytes)
    ensures staged.Some? ==>
              staged.value == (Flat(pickle(Kept(listing, cfg, pickle))), ManifestOf(listing, cfg, pickle, ns.names))
  {
    var c := CollectNames(listing, cfg);
    var temp := new Sink();
    var written, kept := StagePayload(temp, c.items, pickle, cfg.maxBytes);
    if written.None? {
      return None;
    }
    var skipped := SkipTrimmed(c.skipped, c.items[kept..]);
    var saved := set i | i in c.items[..kept] :: i.name;
    var pruned := if cfg.prune then set n | n in c.oversized && n in ns.names else {};
    return Some((temp.content, Manifest(saved, skipped, pruned, written.value)));
  }

  /**
   * A snapshot succeeds exactly when nothing goes wrong and even the empty dictionary fits.
   * The namespace is pruned and the manifest replaced only then; the payload is replaced
   * also when only replacing the manifest fails. No temporary file is left behind.
   */
  method Take(listing: Listing, cfg: Config, pickle: Pickler, trouble: Trouble, ns: Namespace, dir: Directory)
    returns (r: Reply)
    requires GrowsWithItems(pickle) && dir.temps == {}
    modifies ns, dir
    ensures dir.temps == {}
    ensures r.Saved? <==> trouble == Nothing && Fits([], pickle, cfg.maxBytes)
    ensures r.Saved? ==>
              && r.manifest == ManifestOf(listing, cfg, pickle, old(ns.names))
              && dir.manifest == Some(r.manifest)
              && ns.names == old(ns.names) - r.manifest.pruned
    ensures r.Escaped? <==> trouble == NoDirectory || (trouble == InterruptedStaging && Fits([], pickle, cfg.maxBytes))
    ensures !r.Saved? ==> dir.manifest == old(dir.manifest) && ns.names == old(ns.names)
    ensures dir.payload == if trouble in {Nothing, ManifestReplace} && Fits([], pickle, cfg.maxBytes)
                           then Some(Flat(pickle(Kept(listing, cfg, pickle)))) else old(dir.payload)
  {
    if trouble == NoPickler {
      return Error;
    }
    if trouble == NoDirectory {
      return Escaped;
    }
    if trouble == PayloadStaging {
      return Error;
    }
    dir.temps := {PayloadTemp};
    var staged := Stage(listing, cfg, pickle, ns);
    if staged.None? || trouble == ManifestStaging {
      dir.temps := {};
      return Error;
    }
    dir.temps := dir.temps + {ManifestTemp};
    if trouble == InterruptedStaging {
      dir.temps := {};
      return Escaped;
    }
    r := Commit(staged.value.0, staged.value.1, trouble, ns, dir);
    dir.temps := {};
  }

  /** The two renames and then the pruning, in that order. */
  method Commit(payload: Bytes, manifest: Manifest, trouble: Trouble, ns: Namespace, dir: Directory) returns (r: Reply)
    modifies ns, dir
    ensures r == if trouble in {PayloadReplace, ManifestReplace} then Error else Saved(manifest)
    ensures dir.payload == if trouble == PayloadReplace then old(dir.payload) else Some(payload)
    ensures dir.manifest == if r.Saved? then Some(manifest) else old(dir.manifest)
    ensures ns.names == if r.Saved? then old(ns.names) - manifest.pruned else old(ns.names)
  {
    if trouble == PayloadReplace {
      return Error;
    }
    dir.payload, dir.temps := Some(payload), dir.temps - {PayloadTemp};
    if trouble == ManifestReplace {
      return Error;
    }
    dir.manifest, dir.temps := Some(manifest), dir.temps - {ManifestTemp};
    ns.PopAll(manifest.pruned);
    return Saved(manifest);
  }

  // ---------------------------------------------------------------- what a request asks for

  /** The names a snapshot is about. */
  predicate IsUserName(name: string) {
    !("_" <= name) && name !in ALWAYS_SKIPPED
  }

  /** The value pickles, and the pickle is no larger than the cap. */
  predicate PicklesWithin(look: Lookup, cap: int) {
    look.Found? && !look.pickle.raises && |Flat(look.pickle.chunks)| <= cap
  }

  /** All the user's values that pickle within the cap, in the order they are listed. */
  function AllItems(listing: Listing, cap: int): seq<Item> {
    if listing == [] then []
    else
      var (name, look) := listing[|listing| - 1];
      AllItems(listing[..|listing| - 1], cap) +
      if IsUserName(name) && PicklesWithin(look, cap) then [Item(name, Flat(look.pickle.chunks))] else []
  }

  /** A request's configuration: its caps, or 256 MiB in all and 16 MiB for each value. */
  ghost predicate Configures(cfg: Config, total: int, own: int, prune: bool) {
    && cfg.maxBytes == total >= 0 && cfg.maxVariable == own >= 0 && cfg.prune == prune
    && forall name: string :: IsCandidate(name, cfg) <==> IsUserName(name)
  }

  /** Why a value is not kept, or that it is, when so many bytes remain. */
  lemma VerdictTells(look: Lookup, remaining: int, cfg: Config)
    requires cfg.maxVariable >= 0 && remaining >= 0
    ensures
      var v, size := Judge(look, remaining, cfg), if look.Found? then |Flat(look.pickle.chunks)| else 0;
      var least := if remaining < cfg.maxVariable && !cfg.prune then remaining else cfg.maxVariable;
      && (v.Keep? <==> PicklesWithin(look, cfg.maxVariable) && size <= remaining)
      && (v.Keep? ==> v.blob == Flat(look.pickle.chunks))
      && (v == Leave(DeletedMeanwhile, false) <==> look.Gone?)
      && (v == Leave(Unpicklable, false) <==> look.Found? && look.pickle.raises && size <= least)
      && (v == Leave(OverVariableCap, true) <==> size > cfg.maxVariable && (cfg.prune || cfg.maxVariable <= remaining))
      && (v == Leave(OverTotalCap, false) <==>
            look.Found? && size > remaining
            && (if cfg.prune then size <= cfg.maxVariable && !look.pickle.raises else remaining < cfg.maxVariable))
      && (v.Leave? ==> v.oversized == v.reason.OverVariableCap?)
  {
  }

  lemma {:induction false} CollectStaysWithin(listing: Listing, cfg: Config)
    requires cfg.maxBytes >= 0 && cfg.maxVariable >= 0
    ensures 0 <= Collect(listing, cfg).total == TotalSize(Collect(listing, cfg).items) <= cfg.maxBytes
  {
    if listing != [] {
      var c, last := Collect(listing[..|listing| - 1], cfg), listing[|listing| - 1];
      CollectStaysWithin(listing[..|listing| - 1], cfg);
      VerdictTells(last.1, cfg.maxBytes - c.total, cfg);
      OneMoreItem(c.items, Item(last.0, if last.1.Found? then Flat(last.1.pickle.chunks) else []));
    }
  }

  lemma OneMoreItem(items: seq<Item>, item: Item)
    ensures TotalSize(items + [item]) == TotalSize(items) + |item.blob|
  {
    assert (items + [item])[..|items|] == items;
  }

  /** The item is a listed value of the user's with its whole pickle, within its own cap. */
  ghost predicate ListedAs(listing: Listing, i: Item, own: int) {
    exists k :: 0 <= k < |listing| && listing[k].0 == i.name && IsUserName(i.name)
      && PicklesWithin(listing[k].1, own) && i.blob == Flat(listing[k].1.pickle.chunks)
  }

  /** Every collected item is a listed value with its whole pickle, within its own cap. */
  lemma {:induction false} CollectedAreListed(listing: Listing, cfg: Config, total: int, own: int, prune: bool, i: Item)
    requires Configures(cfg, total, own, prune) && i in Collect(listing, cfg).items
    ensures ListedAs(listing, i, own)
  {
    var front, last := listing[..|listing| - 1], listing[|listing| - 1];
    var c := Collect(front, cfg);
    CollectStaysWithin(front, cfg);
    VerdictTells(last.1, cfg.maxBytes - c.total, cfg);
    if i in c.items {
      CollectedAreListed(front, cfg, total, own, prune, i);
      var k :| 0 <= k < |front| && front[k].0 == i.name && IsUserName(i.name)
               && PicklesWithin(front[k].1, own) && i.blob == Flat(front[k].1.pickle.chunks);
      assert listing[k] == front[k];
    } else {
      assert listing[|listing| - 1].0 == i.name;
    }
  }

  lemma TotalGrows(front: seq<Item>, back: seq<Item>)
    ensures TotalSize(front) <= TotalSize(front + back)
  {
    if back == [] {
      assert front + back == front;
    } else {
      var n := |back| - 1;
      assert (front + back)[..|front + back| - 1] == front + back[..n];
      TotalGrows(front, back[..n]);
    }
  }

  /** With room for all of them, all are collected. */
  lemma {:induction false} CollectsAllWithRoom(listing: Listing, cfg: Config, total: int, own: int, prune: bool)
    requires Configures(cfg, total, own, prune) && TotalSize(AllItems(listing, own)) <= total
    ensures Collect(listing, cfg).items == AllItems(listing, own)
  {
    hide Judge, DumpOutcome, Flat, TotalSize, IsUserName;
    if listing != [] {
      var front, last := listing[..|listing| - 1], listing[|listing| - 1];
      var fits := IsUserName(last.0) && PicklesWithin(last.1, own);
      var rest := if fits then [Item(last.0, Flat(last.1.pickle.chunks))] else [];
      TotalGrows(AllItems(front, own), rest);
      CollectsAllWithRoom(front, cfg, total, own, prune);
      CollectStaysWithin(front, cfg);
      VerdictTells(last.1, cfg.maxBytes - Collect(front, cfg).total, cfg);
      if rest != [] {
        OneMoreItem(AllItems(front, own), rest[0]);
      } else {
        assert AllItems(front, own) + [] == AllItems(front, own);
      }
    }
  }

  lemma {:induction false} CollectsMoreLater(listing: Listing, cfg: Config, k: nat)
    requires k <= |listing|
    ensures Collect(listing[..k], cfg).items <= Collect(listing, cfg).items
    decreases |listing|
  {
    if k < |listing| {
      CollectsMoreLater(listing[..|listing| - 1], cfg, k);
      assert listing[..|listing| - 1][..k] == listing[..k];
    } else {
      assert listing[..k] == listing;
    }
  }

  /** A value that pickles within its cap, with room for everything up to it, is saved. */
  lemma SavedWithRoom(listing: Listing, cfg: Config, pickle: Pickler, total: int, own: int, prune: bool, k: nat)
    requires GrowsWithItems(pickle) && Configures(cfg, total, own, prune) && k < |listing|
    requires IsUserName(listing[k].0) && PicklesWithin(listing[k].1, own)
    requires TotalSize(AllItems(listing[..k + 1], own)) <= total
    requires |Flat(pickle(AllItems(listing[..k + 1], own)))| <= total
    ensures AllItems(listing[..k + 1], own) <= Kept(listing, cfg, pickle)
    ensures listing[k].0 in ItemNames(Kept(listing, cfg, pickle))
  {
    var all, items := AllItems(listing[..k + 1], own), Collect(listing, cfg).items;
    CollectsAllWithRoom(listing[..k + 1], cfg, total, own, prune);
    CollectsMoreLater(listing, cfg, k + 1);
    assert items[..|all|] == all;
    assert listing[..k + 1][..k] == listing[..k] && listing[..k + 1][k] == listing[k];
    LongerPrefixIsLarger(items, pickle, 0, |all|);
    assert items[..0] == [];
    LongestFitFits(items, |items|, pickle, cfg.maxBytes);
    assert all[|all| - 1] == Item(listing[k].0, Flat(listing[k].1.pickle.chunks));
    assert all[|all| - 1] in Kept(listing, cfg, pickle);
  }

  /** What is saved is listed, within its own cap, and within the total cap together; so is the payload. */
  lemma SavedWithinCaps(listing: Listing, cfg: Config, pickle: Pickler, total: int, own: int, prune: bool)
    requires Configures(cfg, total, own, prune) && |Flat(pickle([]))| <= total
    ensures
      var kept := Kept(listing, cfg, pickle);
      && |Flat(pickle(kept))| <= total && TotalSize(kept) <= total
      && forall i :: i in kept ==> ListedAs(listing, i, own)
  {
    var kept, items := Kept(listing, cfg, pickle), Collect(listing, cfg).items;
    KeptIsLongestThatFits(listing, cfg, pickle);
    CollectStaysWithin(listing, cfg);
    assert items == kept + items[|kept|..];
    TotalGrows(kept, items[|kept|..]);
    forall i | i in kept
      ensures ListedAs(listing, i, own)
    {
      CollectedAreListed(listing, cfg, total, own, prune, i);
    }
  }

  // ---------------------------------------------------------------- a request

  predicate IsCap(field: Field<int>) {
    field.Absent? || (field.Given? && field.value >= 0)
  }

  /** Requests that are answered with an error before anything is looked at. */
  predicate Refused(req: SnapshotRequest, samePath: bool) {
    req.prune.Malformed? || !IsCap(req.maxBytes) || !IsCap(req.maxVariable) || samePath
  }

  lemma ConfigOfConfigures(req: SnapshotRequest)
    requires !Refused(req, false)
    ensures Configures(ConfigOf(req), Or(req.maxBytes, DEFAULT_MAX_BYTES),
                       Or(req.maxVariable, DEFAULT_MAX_VARIABLE_BYTES), Or(req.prune, false))
  {
    assert forall name: string :: "_" <= name <==> name != "" && name[0] == '_';
  }

  /**
   * The k-th value pickles within its cap, and everything up to it fits the total cap, pickled by
   * itself and together.
   */
  predicate HasRoom(listing: Listing, pickle: Pickler, total: int, own: int, k: nat)
    requires k < |listing|
  {
    && IsUserName(listing[k].0) && PicklesWithin(listing[k].1, own)
    && TotalSize(AllItems(listing[..k + 1], own)) <= total
    && |Flat(pickle(AllItems(listing[..k + 1], own)))| <= total
  }

  /** The manifest and the payload of a request that succeeded, within the request's own caps. */
  ghost predicate Answers(m: Manifest, payload: Bytes, listing: Listing, pickle: Pickler, total: int, own: int) {
    && |payload| <= total && m.bytes == |payload|
    && (exists items :: payload == Flat(pickle(items)) && m.saved == ItemNames(items) && TotalSize(items) <= total
          && forall i :: i in items ==> ListedAs(listing, i, own))
    && forall k :: 0 <= k < |listing| && HasRoom(listing, pickle, total, own, k) ==> listing[k].0 in m.saved
  }

  lemma ManifestAnswers(listing: Listing, cfg: Config, pickle: Pickler, bound: set<string>, total: int, own: int,
                        prune: bool)
    requires GrowsWithItems(pickle) && Configures(cfg, total, own, prune) && |Flat(pickle([]))| <= total
    ensures Answers(ManifestOf(listing, cfg, pickle, bound), Flat(pickle(Kept(listing, cfg, pickle))), listing,
        pickle, total, own)
  {
    SavedWithinCaps(listing, cfg, pickle, total, own, prune);
    forall k | 0 <= k < |listing| && HasRoom(listing, pickle, total, own, k)
      ensures listing[k].0 in ItemNames(Kept(listing, cfg, pickle))
    {
      SavedWithRoom(listing, cfg, pickle, total, own, prune, k);
    }
  }

  /** When pruning, exactly the values whose pickle breaks its own cap go. */
  lemma PrunesExactly(listing: Listing, cfg: Config, pickle: Pickler, bound: set<string>, total: int, own: int,
                      prune: bool, k: nat)
    requires Configures(cfg, total, own, prune) && Distinct(listing) && k < |listing|
    ensures listing[k].0 in ManifestOf(listing, cfg, pickle, bound).pruned <==>
              && prune && listing[k].0 in bound && IsUserName(listing[k].0)
              && listing[k].1.Found? && |Flat(listing[k].1.pickle.chunks)| > own
  {
    if IsUserName(listing[k].0) {
      CollectStaysWithin(listing[..k], cfg);
      CollectDecidesInTurn(listing, cfg, k);
      VerdictTells(listing[k].1, cfg.maxBytes - Collect(listing[..k], cfg).total, cfg);
    } else {
      CollectPartitions(listing, cfg);
      OversizedAreSkipped(listing, cfg);
      assert listing[k].0 !in Candidates(listing, cfg);
    }
  }

  /**
   * A request succeeds exactly when it is well formed, its two paths differ, nothing goes wrong, and
   * the empty dictionary fits. A refused one touches neither files nor namespace; one that succeeds
   * prunes only names bound before whose own pickle breaks a cap that is not negative, and only if asked to.
   */
  method HandleSnapshot(req: SnapshotRequest, samePath: bool, listing: Listing, pickle: Pickler, trouble: Trouble,
                        ns: Namespace, dir: Directory)
    returns (r: Reply)
    requires GrowsWithItems(pickle) && Distinct(listing) && dir.temps == {}
    modifies ns, dir
    ensures dir.temps == {}
    ensures Refused(req, samePath) ==> r == Error && dir.payload == old(dir.payload)
    ensures r.Saved? <==>
              && trouble == Nothing && !samePath && !req.prune.Malformed?
              && (req.maxBytes.Absent? || (req.maxBytes.Given? && req.maxBytes.value >= 0))
              && (req.maxVariable.Absent? || (req.maxVariable.Given? && req.maxVariable.value >= 0))
              && |Flat(pickle([]))| <= if req.maxBytes.Given? then req.maxBytes.value else 268435456
    ensures r.Saved? ==>
              && dir.manifest == Some(r.manifest) && dir.payload.Some?
              && r.manifest == ManifestOf(listing, ConfigOf(req), pickle, old(ns.names))
              && dir.payload == Some(Flat(pickle(Kept(listing, ConfigOf(req), pickle))))
              && Answers(r.manifest, dir.payload.value, listing, pickle,
                         if req.maxBytes.Given? then req.maxBytes.value else 268435456,
                         if req.maxVariable.Given? then req.maxVariable.value else 16777216)
              && ns.names == old(ns.names) - r.manifest.pruned
    ensures !r.Saved? ==> dir.manifest == old(dir.manifest) && ns.names == old(ns.names)
    ensures forall k :: 0 <= k < |listing| && listing[k].0 in old(ns.names) ==>
              (listing[k].0 !in ns.names <==>
                 && r.Saved? && req.prune == Given(true) && IsUserName(listing[k].0) && listing[k].1.Found?
                 && |Flat(listing[k].1.pickle.chunks)| >
                      if req.maxVariable.Given? then req.maxVariable.value else 16777216)
    ensures forall name :: name in old(ns.names) && name !in ns.names ==>
              && req.prune == Given(true) && r.Saved?
              && Skip(name, OverVariableCap) in r.manifest.skipped && name !in r.manifest.saved
  {
    if req.prune.Malformed? {
      return Error;
    }
    if !IsCap(req.maxBytes) || !IsCap(req.maxVariable) {
      return Error;
    }
    if samePath {
      return Error;
    }
    ghost var total, own := Or(req.maxBytes, DEFAULT_MAX_BYTES), Or(req.maxVariable, DEFAULT_MAX_VARIABLE_BYTES);
    ghost var prune := Or(req.prune, false);
    ConfigOfConfigures(req);
    r := Take(listing, ConfigOf(req), pickle, trouble, ns, dir);
    if r.Saved? {
      ManifestAnswers(listing, ConfigOf(req), pickle, old(ns.names), total, own, prune);
      forall k | 0 <= k < |listing|
        ensures listing[k].0 in r.manifest.pruned <==>
                  && prune && listing[k].0 in old(ns.names) && IsUserName(listing[k].0)
                  && listing[k].1.Found? && |Flat(listing[k].1.pickle.chunks)| > own
      {
        PrunesExactly(listing, ConfigOf(req), pickle, old(ns.names), total, own, prune, k);
      }
      forall name | name in r.manifest.pruned
        ensures req.prune == Given(true)
        ensures Skip(name, OverVariableCap) in r.manifest.skipped && name !in r.manifest.saved
      {
        PrunedIsNeverSaved(listing, ConfigOf(req), pickle, old(ns.names), name);
      }
    }
  }
}
