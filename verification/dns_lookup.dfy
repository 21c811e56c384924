/** The pure decisions inside `lookup_domains`: which cache files are still
    fresh, which records the cache pass hands to the callback, which domains
    are still pending afterwards, and whether any lookup is needed at all.
    The clock and the directory listing are parameters; the network half is
    not modelled. */
module DnsLookup {
  import opened Results
  import opened Names
  import opened Text
  import opened DnsRecord

  /** Seven days, in seconds. */
  const MAX_AGE: nat := 7 * 86400

  const NANOS_PER_SECOND: nat := 1_000_000_000

  /** A cache file as the cache pass sees it: its modification and creation
      times in nanoseconds since the epoch, when the platform reports them,
      and its text. */
  datatype CacheFile = CacheFile(modified: Option<int>, created: Option<int>, content: string)

  /** `metadata.modified().or(metadata.created())`. */
  function Stamp(f: CacheFile): Option<int> {
    if f.modified.Some? then f.modified else f.created
  }

  /** `now.duration_since(t).as_secs()`: fails when `t` is later than `now`,
      and otherwise counts the whole seconds elapsed, rounding down. */
  function AgeSecs(now: int, t: int): (age: Option<nat>)
    ensures age.Some? <==> t <= now
    ensures age.Some? ==> age.value * NANOS_PER_SECOND <= now - t < (age.value + 1) * NANOS_PER_SECOND
  {
    if now < t then None else Some((now - t) / NANOS_PER_SECOND)
  }

  /** A file is read only when it has a time stamp, the stamp is not in the
      future, and its age in whole seconds is below `MAX_AGE`. */
  predicate IsFresh(now: int, f: CacheFile) {
    match Stamp(f)
    case None => false
    case Some(t) =>
      match AgeSecs(now, t)
      case None => false
      case Some(age) => age < MAX_AGE
  }

  /** Freshness in elapsed nanoseconds: strictly less than seven days. A file
      exactly `MAX_AGE` seconds old, or older, is excluded. */
  lemma FreshnessBoundary(now: int, f: CacheFile)
    ensures IsFresh(now, f) <==>
              Stamp(f).Some? && Stamp(f).value <= now
              && now - Stamp(f).value < MAX_AGE * NANOS_PER_SECOND
  {
  }

  /** The records of the lines that parse, in line order. */
  function ParsedLines(syn: Syntax, lines: seq<string>): seq<DnsResultRecord>
  {
    if |lines| == 0 then []
    else
      match FromStr(syn, lines[0])
      case Ok(r) => [r] + ParsedLines(syn, lines[1..])
      case Err => ParsedLines(syn, lines[1..])
  }

  /** Every record the cache pass hands to the callback: the parsed lines of
      every fresh file, in file order and line order. */
  function CacheHits(syn: Syntax, files: seq<CacheFile>, now: int): seq<DnsResultRecord>
  {
    if |files| == 0 then []
    else
      (if IsFresh(now, files[0]) then ParsedLines(syn, Lines(files[0].content)) else [])
      + CacheHits(syn, files[1..], now)
  }

  function RecordDomains(records: seq<DnsResultRecord>): set<Domain> {
    set i | 0 <= i < |records| :: records[i].domain
  }

  lemma {:induction false} ParsedLinesAppend(syn: Syntax, a: seq<string>, b: seq<string>)
    ensures ParsedLines(syn, a + b) == ParsedLines(syn, a) + ParsedLines(syn, b)
    decreases |a|
  {
    if |a| == 0 {
      assert a + b == b;
    } else {
      assert (a + b)[0] == a[0] && (a + b)[1..] == a[1..] + b;
      ParsedLinesAppend(syn, a[1..], b);
    }
  }

  lemma {:induction false} CacheHitsAppend(syn: Syntax, a: seq<CacheFile>, b: seq<CacheFile>, now: int)
    ensures CacheHits(syn, a + b, now) == CacheHits(syn, a, now) + CacheHits(syn, b, now)
    decreases |a|
  {
    if |a| == 0 {
      assert a + b == b;
    } else {
      assert (a + b)[0] == a[0] && (a + b)[1..] == a[1..] + b;
      CacheHitsAppend(syn, a[1..], b, now);
    }
  }

  lemma RecordDomainsAppend(a: seq<DnsResultRecord>, b: seq<DnsResultRecord>)
    ensures RecordDomains(a + b) == RecordDomains(a) + RecordDomains(b)
  {
    forall d | d in RecordDomains(a + b)
      ensures d in RecordDomains(a) + RecordDomains(b)
    {
      var i :| 0 <= i < |a + b| && (a + b)[i].domain == d;
      if i >= |a| {
        assert b[i - |a|].domain == d;
      }
    }
    forall d | d in RecordDomains(a)
      ensures d in RecordDomains(a + b)
    {
      var i :| 0 <= i < |a| && a[i].domain == d;
      assert (a + b)[i].domain == d;
    }
    forall d | d in RecordDomains(b)
      ensures d in RecordDomains(a + b)
    {
      var i :| 0 <= i < |b| && b[i].domain == d;
      assert (a + b)[i + |a|].domain == d;
    }
  }

  lemma RecordDomainsSnoc(a: seq<DnsResultRecord>, r: DnsResultRecord)
    ensures RecordDomains(a + [r]) == RecordDomains(a) + {r.domain}
  {
    RecordDomainsAppend(a, [r]);
    assert [r][0].domain == r.domain;
  }

  /** The cache pass of `lookup_domains`: reads every fresh file line by
      line; each line that parses goes to the callback (whether or not its
      domain is pending) and its domain leaves the pending set. `calls` is
      the sequence of callback arguments. */
  method LoadCache(syn: Syntax, files: seq<CacheFile>, now: int, domains: set<Domain>)
    returns (pending: set<Domain>, calls: seq<DnsResultRecord>)
    ensures calls == CacheHits(syn, files, now)
    ensures pending == domains - RecordDomains(calls)
  {
    pending := domains;
    calls := [];
    var k := 0;
    while k < |files|
      invariant 0 <= k <= |files|
      invariant calls == CacheHits(syn, files[..k], now)
      invariant pending == domains - RecordDomains(calls)
    {
      var before := calls;
      if IsFresh(now, files[k]) {
        var lines := Lines(files[k].content);
        var j := 0;
        while j < |lines|
          invariant 0 <= j <= |lines|
          invariant calls == before + ParsedLines(syn, lines[..j])
          invariant pending == domains - RecordDomains(calls)
        {
          ParsedLinesAppend(syn, lines[..j], [lines[j]]);
          assert lines[..j + 1] == lines[..j] + [lines[j]];
          match FromStr(syn, lines[j]) {
            case Ok(record) =>
              RecordDomainsSnoc(calls, record);
              pending := pending - {record.domain};
              calls := calls + [record];
            case Err =>
          }
          j := j + 1;
        }
        assert lines[..|lines|] == lines;
      }
      CacheHitsAppend(syn, files[..k], [files[k]], now);
      assert files[..k + 1] == files[..k] + [files[k]];
      k := k + 1;
    }
    assert files[..|files|] == files;
  }

  /** What `lookup_domains` does once the cache pass is over. */
  datatype Next = Finished | Resolve(pending: set<Domain>)

  /** Returns straight away, opening no file, when nothing is pending. */
  function AfterCache(pending: set<Domain>): (next: Next)
    ensures next == Finished <==> pending == {}
    ensures next.Resolve? ==> next.pending == pending
  {
    if pending == {} then Finished else Resolve(pending)
  }

  /** The cache half of `lookup_domains`: the callback arguments, and whether
      the network half runs and on which domains. */
  method LookupDomainsFromCache(syn: Syntax, files: seq<CacheFile>, now: int, domains: set<Domain>)
    returns (calls: seq<DnsResultRecord>, next: Next)
    ensures calls == CacheHits(syn, files, now)
    ensures next == Finished <==> domains <= RecordDomains(calls)
    ensures next.Resolve? ==> next.pending == domains - RecordDomains(calls)
  {
    var pending;
    pending, calls := LoadCache(syn, files, now, domains);
    next := AfterCache(pending);
    if pending == {} {
      forall d | d in domains
        ensures d in RecordDomains(calls)
      {
        assert d !in pending;
      }
    }
  }

  /** A file that is not fresh contributes no record, wherever it sits in
      the listing and however well-formed its lines. */
  lemma ExpiredFileSkipped(syn: Syntax, a: seq<CacheFile>, f: CacheFile, b: seq<CacheFile>, now: int)
    requires !IsFresh(now, f)
    ensures CacheHits(syn, a + [f] + b, now) == CacheHits(syn, a + b, now)
  {
    CacheHitsAppend(syn, a + [f], b, now);
    CacheHitsAppend(syn, a, [f], now);
    CacheHitsAppend(syn, a, b, now);
    assert CacheHits(syn, [f], now) == [] + CacheHits(syn, [], now);
  }

  /** In particular a file whose stamp is exactly `MAX_AGE` seconds old is
      skipped. */
  lemma ExpiredAtMaxAge(syn: Syntax, a: seq<CacheFile>, f: CacheFile, b: seq<CacheFile>, now: int)
    requires Stamp(f).Some? && now - Stamp(f).value == MAX_AGE * NANOS_PER_SECOND
    ensures CacheHits(syn, a + [f] + b, now) == CacheHits(syn, a + b, now)
  {
    FreshnessBoundary(now, f);
    ExpiredFileSkipped(syn, a, f, b, now);
  }

  // -----------------------------------------------------------------------
  // What a resolution run appends, read back by the next run

  /** The line `lookup_domains` writes for a record. */
  function RecordLines(records: seq<DnsResultRecord>): (lines: seq<string>)
    ensures |lines| == |records|
  {
    seq(|records|, i requires 0 <= i < |records| => ToString(records[i]) + "\n")
  }

  /** What one run appends to the day's file: a separator newline, then one
      line per successfully resolved record. */
  function RunLog(records: seq<DnsResultRecord>): string {
    "\n" + Concat(RecordLines(records))
  }

  /** No text of the record holds a newline, so its line stays one line. */
  ghost predicate SingleLine(r: DnsResultRecord) {
    && '\n' !in DomainText(r.domain)
    && (forall i :: 0 <= i < |r.cnames| ==> '\n' !in DomainText(r.cnames[i]))
    && (forall i :: 0 <= i < |r.ips| ==> '\n' !in r.ips[i].text)
  }

  lemma SingleLineText(r: DnsResultRecord)
    requires SingleLine(r)
    ensures '\n' !in ToString(r)
  {
    TerminatedNoSep(DomainTexts(r.cnames), ',', '\n');
    TerminatedNoSep(IpTexts(r.ips), ',', '\n');
  }

  lemma {:induction false} RecordLinesRead(records: seq<DnsResultRecord>)
    requires forall i :: 0 <= i < |records| ==> SingleLine(records[i])
    ensures Lines(Concat(RecordLines(records))) == RecordLines(records)
    decreases |records|
  {
    if |records| > 0 {
      var lines := RecordLines(records);
      assert lines[1..] == RecordLines(records[1..]);
      RecordLinesRead(records[1..]);
      SingleLineText(records[0]);
      LinesCons(ToString(records[0]), Concat(lines[1..]));
    }
  }

  lemma {:induction false} RecordLinesParse(syn: Syntax, records: seq<DnsResultRecord>)
    requires forall i :: 0 <= i < |records| ==> Printable(syn, records[i])
    ensures ParsedLines(syn, RecordLines(records)) == records
    decreases |records|
  {
    if |records| > 0 {
      var lines := RecordLines(records);
      assert lines[1..] == RecordLines(records[1..]);
      RecordLinesParse(syn, records[1..]);
      RoundTrip(syn, records[0], "\n");
    }
  }

  /** Reading back what a run appended yields exactly the records it wrote,
      in order; the separator line parses as nothing. */
  lemma ReadBackRunLog(syn: Syntax, records: seq<DnsResultRecord>)
    requires forall i :: 0 <= i < |records| ==> Printable(syn, records[i]) && SingleLine(records[i])
    ensures ParsedLines(syn, Lines(RunLog(records))) == records
  {
    var body := Concat(RecordLines(records));
    LinesCons("", body);
    assert "" + "\n" + body == RunLog(records);
    RecordLinesRead(records);
    SplitNoSep("\n", ';');
    assert FromStr(syn, "\n").Err?;
    assert Lines(RunLog(records)) == ["\n"] + RecordLines(records);
    assert ParsedLines(syn, ["\n"] + RecordLines(records)) == ParsedLines(syn, RecordLines(records));
    RecordLinesParse(syn, records);
  }

  /** The domains of a fresh file's records are among those of all hits. */
  lemma {:induction false} FreshFileHits(syn: Syntax, files: seq<CacheFile>, now: int, k: nat)
    requires k < |files| && IsFresh(now, files[k])
    ensures RecordDomains(ParsedLines(syn, Lines(files[k].content))) <= RecordDomains(CacheHits(syn, files, now))
    decreases k
  {
    var first := if IsFresh(now, files[0]) then ParsedLines(syn, Lines(files[0].content)) else [];
    RecordDomainsAppend(first, CacheHits(syn, files[1..], now));
    if k > 0 {
      FreshFileHits(syn, files[1..], now, k - 1);
    }
  }

  /** Any text is a run of whole lines followed by a tail without a
      newline: the part a later `read_line` continues. */
  lemma {:induction false} LastLineBoundary(s: string) returns (p: string, t: string)
    ensures s == p + t
    ensures |p| == 0 || p[|p| - 1] == '\n'
    ensures '\n' !in t
    decreases |s|
  {
    if |s| == 0 {
      p, t := "", "";
    } else if s[|s| - 1] == '\n' {
      p, t := s, "";
    } else {
      var p', t' := LastLineBoundary(s[..|s| - 1]);
      p, t := p', t' + [s[|s| - 1]];
      assert s == s[..|s| - 1] + [s[|s| - 1]];
    }
  }

  /** Once a run has appended records for every pending domain to a file
      that is still fresh, the next run needs no lookup at all. The earlier
      content may end in a partial line: the separator newline closes it. */
  lemma RerunNeedsNoLookup(syn: Syntax, files: seq<CacheFile>, now: int, k: nat,
                           prior: string, records: seq<DnsResultRecord>, domains: set<Domain>)
    requires k < |files| && IsFresh(now, files[k])
    requires files[k].content == prior + RunLog(records)
    requires forall i :: 0 <= i < |records| ==> Printable(syn, records[i]) && SingleLine(records[i])
    requires domains <= RecordDomains(records)
    ensures AfterCache(domains - RecordDomains(CacheHits(syn, files, now))) == Finished
  {
    var body := Concat(RecordLines(records));
    var p, t := LastLineBoundary(prior);
    assert files[k].content == p + (t + "\n" + body);
    LinesAppend(p, t + "\n" + body);
    LinesCons(t, body);
    RecordLinesRead(records);
    RecordLinesParse(syn, records);
    var head := Lines(p) + [t + "\n"];
    assert Lines(files[k].content) == head + RecordLines(records);
    ParsedLinesAppend(syn, head, RecordLines(records));
    RecordDomainsAppend(ParsedLines(syn, head), records);
    FreshFileHits(syn, files, now, k);
  }
}
