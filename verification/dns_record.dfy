/** The cache line of one DNS answer, `DNSResultRecord`: serialised as
    `domain;cname,cname,...,;ip,ip,...,` and parsed back by `from_str`.
    Domain and IP parsing (`Domain::from_str`, `IpAddr::from_str`) belong
    to other code, so they are parameters; a domain prints as its text and
    an IP as its token. */
module DnsRecord {
  import opened Results
  import opened Names
  import opened Text

  datatype DnsResultRecord = DnsResultRecord(domain: Domain, cnames: seq<Domain>, ips: seq<IpAddr>)

  /** The parsers the codec calls, whatever they accept. */
  datatype Syntax = Syntax(parseDomain: string -> Option<Domain>, parseIp: string -> Option<IpAddr>)

  function DomainTexts(ds: seq<Domain>): (ts: seq<string>)
    ensures |ts| == |ds| && forall i :: 0 <= i < |ds| ==> ts[i] == DomainText(ds[i])
  {
    seq(|ds|, i requires 0 <= i < |ds| => DomainText(ds[i]))
  }

  function IpTexts(ips: seq<IpAddr>): (ts: seq<string>)
    ensures |ts| == |ips| && forall i :: 0 <= i < |ips| ==> ts[i] == ips[i].text
  {
    seq(|ips|, i requires 0 <= i < |ips| => ips[i].text)
  }

  /** `to_string`: the domain, `;`, every CNAME followed by `,`, `;`, every
      IP followed by `,`. The line starts with the domain's text and always
      ends in a delimiter, never in a newline. */
  function ToString(r: DnsResultRecord): (s: string)
    ensures |DomainText(r.domain)| < |s| && s[..|DomainText(r.domain)|] == DomainText(r.domain)
    ensures s[|DomainText(r.domain)|] == ';'
    ensures s[|s| - 1] == (if |r.ips| == 0 then ';' else ',')
  {
    DomainText(r.domain) + ";" + Terminated(DomainTexts(r.cnames), ',')
      + ";" + Terminated(IpTexts(r.ips), ',')
  }

  /** Parses every piece in order; the first failure fails the whole list. */
  function ParseAll<T>(pieces: seq<string>, parse: string -> Option<T>): (r: Option<seq<T>>)
    ensures r.Some? <==> forall i :: 0 <= i < |pieces| ==> parse(pieces[i]).Some?
    ensures r.Some? ==>
              |r.value| == |pieces| && forall i :: 0 <= i < |pieces| ==> parse(pieces[i]) == Some(r.value[i])
  {
    if |pieces| == 0 then Some([])
    else
      match parse(pieces[0])
      case None => None
      case Some(x) =>
        match ParseAll(pieces[1..], parse)
        case None =>
          assert !forall i :: 1 <= i < |pieces| ==> parse(pieces[i]).Some? by {
            var j :| 0 <= j < |pieces[1..]| && parse(pieces[1..][j]).None?;
            assert pieces[j + 1] == pieces[1..][j];
          }
          None
        case Some(xs) =>
          assert forall i :: 1 <= i < |pieces| ==> pieces[i] == pieces[1..][i - 1];
          Some([x] + xs)
  }

  /** The `;`-separated fields of a line. */
  function Fields(s: string): (fs: seq<string>)
    ensures |fs| >= 1
  {
    Split(s, ';')
  }

  /** The non-empty `,`-separated pieces of the CNAME field. */
  function CnamePieces(s: string): seq<string>
    requires |Fields(s)| >= 2
  {
    NonEmpty(Split(Fields(s)[1], ','))
  }

  /** The non-empty `,`-separated pieces of the IP field, with trailing
      whitespace removed first. */
  function IpPieces(s: string): seq<string>
    requires |Fields(s)| >= 3
  {
    NonEmpty(Split(TrimEnd(Fields(s)[2]), ','))
  }

  /** `from_str`: a line parses exactly when it has at least three fields,
      the first parses as a domain, and every non-empty piece of the second
      and third parses; the result keeps the pieces' order. Fields after the
      third are not looked at. */
  function FromStr(syn: Syntax, s: string): (r: Result<DnsResultRecord>)
    ensures |Fields(s)| < 3 ==> r.Err?
    ensures r.Ok? <==>
              && |Fields(s)| >= 3
              && syn.parseDomain(Fields(s)[0]).Some?
              && (forall i :: 0 <= i < |CnamePieces(s)| ==> syn.parseDomain(CnamePieces(s)[i]).Some?)
              && (forall i :: 0 <= i < |IpPieces(s)| ==> syn.parseIp(IpPieces(s)[i]).Some?)
    ensures r.Ok? ==> syn.parseDomain(Fields(s)[0]) == Some(r.value.domain)
    ensures r.Ok? ==>
              && |r.value.cnames| == |CnamePieces(s)|
              && forall i :: 0 <= i < |CnamePieces(s)| ==>
                   syn.parseDomain(CnamePieces(s)[i]) == Some(r.value.cnames[i])
    ensures r.Ok? ==>
              && |r.value.ips| == |IpPieces(s)|
              && forall i :: 0 <= i < |IpPieces(s)| ==> syn.parseIp(IpPieces(s)[i]) == Some(r.value.ips[i])
  {
    var parts := Split(s, ';');
    assert parts == Fields(s);
    match syn.parseDomain(parts[0])
    case None => Err
    case Some(domain) =>
      if |parts| < 2 then Err
      else
        var cnamePieces := NonEmpty(Split(parts[1], ','));
        assert cnamePieces == CnamePieces(s);
        match ParseAll(cnamePieces, syn.parseDomain)
        case None => Err
        case Some(cnames) =>
          if |parts| < 3 then Err
          else
            var ipPieces := NonEmpty(Split(TrimEnd(parts[2]), ','));
            assert ipPieces == IpPieces(s);
            match ParseAll(ipPieces, syn.parseIp)
            case None => Err
            case Some(ips) => Ok(DnsResultRecord(domain, cnames, ips))
  }

  // -----------------------------------------------------------------------
  // Round trip

  /** A CNAME or IP text survives the list syntax: it is non-empty and holds
      no field or item delimiter. */
  predicate ListItemText(t: string) {
    t != "" && ';' !in t && ',' !in t
  }

  /** Every text of the record survives the line syntax and parses back to
      the value it was printed from. */
  ghost predicate Printable(syn: Syntax, r: DnsResultRecord) {
    && ';' !in DomainText(r.domain)
    && syn.parseDomain(DomainText(r.domain)) == Some(r.domain)
    && (forall i :: 0 <= i < |r.cnames| ==>
          ListItemText(DomainText(r.cnames[i])) && syn.parseDomain(DomainText(r.cnames[i])) == Some(r.cnames[i]))
    && (forall i :: 0 <= i < |r.ips| ==>
          ListItemText(r.ips[i].text) && syn.parseIp(r.ips[i].text) == Some(r.ips[i]))
  }

  /** Parsing the printed forms of `xs` gives `xs` back, in order. */
  lemma ParseAllPrinted<T>(texts: seq<string>, xs: seq<T>, parse: string -> Option<T>)
    requires |texts| == |xs|
    requires forall i :: 0 <= i < |xs| ==> parse(texts[i]) == Some(xs[i])
    ensures ParseAll(texts, parse) == Some(xs)
  {
    var r := ParseAll(texts, parse);
    assert r.Some?;
    assert r.value == xs;
  }

  /** A comma-terminated list of item texts yields exactly those texts as
      its non-empty pieces. */
  lemma ListPieces(texts: seq<string>)
    requires forall i :: 0 <= i < |texts| ==> ListItemText(texts[i])
    ensures NonEmpty(Split(Terminated(texts, ','), ',')) == texts
  {
    SplitTerminated(texts, ',');
    NonEmptyDropsOneEmpty(texts);
  }

  /** Three delimiter-free texts joined by `;` are the three fields. */
  lemma ThreeFields(a: string, b: string, c: string)
    requires ';' !in a && ';' !in b && ';' !in c
    ensures Fields(a + ";" + b + ";" + c) == [a, b, c]
  {
    assert a + ";" + b + ";" + c == a + [';'] + (b + [';'] + c);
    SplitCons(a, ';', b + [';'] + c);
    SplitCons(b, ';', c);
    SplitNoSep(c, ';');
  }

  lemma WhitespaceHasNoDelimiter(ws: string)
    requires AllWhitespace(ws)
    ensures ';' !in ws
  {
  }

  /** `from_str(to_string(r) + ws) == Ok(r)` for a printable record and any
      trailing whitespace, such as the newline `read_line` keeps. Empty,
      single and longer lists all come back in their order. */
  lemma RoundTrip(syn: Syntax, r: DnsResultRecord, ws: string)
    requires Printable(syn, r)
    requires AllWhitespace(ws)
    ensures FromStr(syn, ToString(r) + ws) == Ok(r)
  {
    var cs := DomainTexts(r.cnames);
    var ips := IpTexts(r.ips);
    var ip := Terminated(ips, ',');
    var s := ToString(r) + ws;
    TerminatedNoSep(cs, ',', ';');
    TerminatedNoSep(ips, ',', ';');
    WhitespaceHasNoDelimiter(ws);
    assert s == DomainText(r.domain) + ";" + Terminated(cs, ',') + ";" + (ip + ws);
    ThreeFields(DomainText(r.domain), Terminated(cs, ','), ip + ws);
    TrimEndSuffix(ip, ws);
    ListPieces(cs);
    ListPieces(ips);
    assert CnamePieces(s) == cs;
    assert IpPieces(s) == ips;
    ParseAllPrinted(cs, r.cnames, syn.parseDomain);
    ParseAllPrinted(ips, r.ips, syn.parseIp);
  }

  /** The exact line, with nothing appended, parses back too. */
  lemma RoundTripExact(syn: Syntax, r: DnsResultRecord)
    requires Printable(syn, r)
    ensures FromStr(syn, ToString(r)) == Ok(r)
  {
    RoundTrip(syn, r, "");
    assert ToString(r) + "" == ToString(r);
  }

  /** Fields after the third are ignored. */
  lemma ExtraFieldsIgnored(syn: Syntax, a: string, b: string, c: string, extra: string)
    requires ';' !in a && ';' !in b && ';' !in c
    ensures FromStr(syn, a + ";" + b + ";" + c + ";" + extra) == FromStr(syn, a + ";" + b + ";" + c)
  {
    var long := a + ";" + b + ";" + c + ";" + extra;
    var short := a + ";" + b + ";" + c;
    assert long == a + [';'] + (b + [';'] + (c + [';'] + extra));
    assert short == a + [';'] + (b + [';'] + c);
    SplitCons(a, ';', b + [';'] + (c + [';'] + extra));
    SplitCons(b, ';', c + [';'] + extra);
    SplitCons(c, ';', extra);
    SplitCons(a, ';', b + [';'] + c);
    SplitCons(b, ';', c);
    SplitNoSep(c, ';');
    assert Fields(long)[..3] == Fields(short);
  }

  /** Empty list items are skipped: `d;,,;,` has no CNAMEs and no IPs. */
  lemma EmptyPiecesSkipped(syn: Syntax, d: Domain)
    requires ';' !in DomainText(d)
    requires syn.parseDomain(DomainText(d)) == Some(d)
    ensures FromStr(syn, DomainText(d) + ";,,;,") == Ok(DnsResultRecord(d, [], []))
  {
    var s := DomainText(d) + ";,,;,";
    assert s == DomainText(d) + ";" + ",," + ";" + ",";
    ThreeFields(DomainText(d), ",,", ",");
    EmptyItems(["", ""]);
    EmptyItems([""]);
    assert TrimEnd(",") == ",";
    assert CnamePieces(s) == [];
    assert IpPieces(s) == [];
  }

  /** A list of empty items has no non-empty pieces. */
  lemma EmptyItems(items: seq<string>)
    requires forall i :: 0 <= i < |items| ==> items[i] == ""
    ensures NonEmpty(Split(Terminated(items, ','), ',')) == []
  {
    SplitTerminated(items, ',');
    NonEmptyOfEmpties(items + [""]);
  }
}
