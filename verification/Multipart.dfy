/** Multipart MIME bodies: the boundary scanner, the splitter and the printer. */
module Multipart {

  /** The states of the boundary scanner. */
  datatype Mode = Start | Cr | Lf | Hyphen | Boundary | Hyphen2 | Hyphen3 | Cr2 | Lf2 | Matched

  /** Scanner variables: state, matched boundary characters, final flag and the part end found so far. */
  datatype Scanner = Scanner(mode: Mode, b: nat, final: bool, beg: nat)

  /** Where the scanner loop stopped, and in which state. */
  datatype Stop = Stop(g: Scanner, c: nat)

  datatype Delimiter = NotFound | Found(final: bool, beg: nat, end: nat)

  /** A boundary parameter is never empty: AmContentType::Param::parseType refuses that. */
  type Mark = s: string | |s| > 0 witness "b"

  function Crlf(): (s: string)
    ensures |s| == 2
  {
    "\r\n"
  }

  function Dashes(): (s: string)
    ensures |s| == 2
  {
    "--"
  }

  /** What follows the boundary in a delimiter line. */
  function Close(final: bool): (s: string)
    ensures |s| == if final then 4 else 2
  {
    if final then "--\r\n" else "\r\n"
  }

  predicate Consistent(mark: Mark, g: Scanner) {
    match g.mode
    case Start | Cr | Lf | Hyphen => g.b == 0 && !g.final
    case Boundary => g.b < |mark| && !g.final
    case Hyphen2 => g.b == |mark| && !g.final
    case Hyphen3 | Cr2 => g.b == |mark| && g.final
    case Lf2 | Matched => g.b == |mark|
  }

  /** One turn of the scanner loop on character ch at position c. */
  function Step(mark: Mark, g: Scanner, c: nat, ch: char): (r: Scanner)
    requires Consistent(mark, g)
    ensures Consistent(mark, r)
    ensures r.beg == g.beg || r.beg == c
  {
    match g.mode
    case Start => if ch == '\r' then g.(mode := Cr, beg := c) else g
    case Cr => g.(mode := if ch == '\n' then Lf else Start)
    case Lf =>
      if ch == '-' then g.(mode := Hyphen)
      else if ch == '\r' then g.(mode := Cr, beg := c)
      else g.(mode := Start)
    case Hyphen => g.(mode := if ch == '-' then Boundary else Start)
    case Boundary =>
      if ch == mark[g.b] then g.(mode := if g.b + 1 == |mark| then Hyphen2 else Boundary, b := g.b + 1)
      else Restart(g)
    case Hyphen2 =>
      if ch == '-' then g.(mode := Hyphen3, final := true)
      else if ch == '\r' then g.(mode := Lf2)
      else Restart(g)
    case Hyphen3 => if ch == '-' then g.(mode := Cr2) else Restart(g)
    case Cr2 => if ch == '\r' then g.(mode := Lf2) else Restart(g)
    case Lf2 => if ch == '\n' then g.(mode := Matched) else Restart(g)
    case Matched => g
  }

  function Restart(g: Scanner): Scanner {
    Scanner(Start, 0, false, g.beg)
  }

  /** The loop guard: enough text is left for the rest of the boundary. */
  predicate Goes(mark: Mark, buf: string, g: Scanner, c: nat)
    requires Consistent(mark, g)
  {
    g.mode != Matched && c < |buf| - (|mark| - g.b)
  }

  function Scan(mark: Mark, buf: string, g: Scanner, c: nat): (r: Stop)
    requires Consistent(mark, g) && c <= |buf|
    ensures Consistent(mark, r.g) && c <= r.c <= |buf|
    decreases |buf| - c
  {
    if Goes(mark, buf, g, c) then Scan(mark, buf, Step(mark, g, c, buf[c]), c + 1) else Stop(g, c)
  }

  /** A buffer may start directly with the delimiter. */
  function Initial(text: string, p: nat): Scanner {
    Scanner(if text != "" && text[0] == '-' then Lf else Start, 0, false, p)
  }

  function Verdict(g: Scanner, c: nat): Delimiter {
    if g.mode in {Matched, Hyphen3, Cr2, Lf2} then Found(g.final, g.beg, c) else NotFound
  }

  /** findNextBoundary, from position p to the end of the buffer. */
  function Find(mark: Mark, buf: string, p: nat): Delimiter
    requires p <= |buf|
  {
    var Stop(g, c) := Scan(mark, buf, Initial(buf[p..], p), p);
    Verdict(g, c)
  }

  method FindNextBoundary(mark: Mark, buf: string, p: nat) returns (d: Delimiter)
    requires p <= |buf|
    ensures d == Find(mark, buf, p)
  {
    var mode, b, final, beg, c := Start, 0, false, p, p;
    if c < |buf| && buf[c] == '-' {
      mode := Lf;
    }
    assert Scanner(mode, b, final, beg) == Initial(buf[p..], p);
    while mode != Matched && c < |buf| - (|mark| - b)
      invariant p <= c <= |buf| && Consistent(mark, Scanner(mode, b, final, beg))
      invariant Scan(mark, buf, Scanner(mode, b, final, beg), c) == Scan(mark, buf, Initial(buf[p..], p), p)
      decreases |buf| - c
    {
      ghost var g := Scanner(mode, b, final, beg);
      var ch := buf[c];
      match mode {
        case Start =>
          if ch == '\r' { beg := c; mode := Cr; }
        case Cr =>
          mode := if ch == '\n' then Lf else Start;
        case Lf =>
          if ch == '-' { mode := Hyphen; }
          else if ch == '\r' { mode := Cr; beg := c; }
          else { mode := Start; }
        case Hyphen =>
          mode := if ch == '-' then Boundary else Start;
        case Boundary =>
          if ch == mark[b] {
            b := b + 1;
            if b == |mark| { mode := Hyphen2; }
          } else { b, mode := 0, Start; }
        case Hyphen2 =>
          if ch == '-' { final := true; mode := Hyphen3; }
          else if ch == '\r' { mode := Lf2; }
          else { b, mode := 0, Start; }
        case Hyphen3 =>
          if ch == '-' { mode := Cr2; } else { b, final, mode := 0, false, Start; }
        case Cr2 =>
          if ch == '\r' { mode := Lf2; } else { b, final, mode := 0, false, Start; }
        case Lf2 =>
          if ch == '\n' { mode := Matched; } else { b, final, mode := 0, false, Start; }
      }
      assert Scanner(mode, b, final, beg) == Step(mark, g, c, ch);
      c := c + 1;
    }
    if mode == Matched || mode == Hyphen3 || mode == Cr2 || mode == Lf2 {
      return Found(final, beg, c);
    }
    return NotFound;
  }

  // ---- soundness, for every input ----

  /** The text read since g.beg, when the scanner is past Start. */
  ghost function Read(mark: Mark, lead: string, g: Scanner): string
    requires Consistent(mark, g)
  {
    match g.mode
    case Start => ""
    case Cr => "\r"
    case Lf => lead
    case Hyphen => lead + "-"
    case Boundary | Hyphen2 => lead + "--" + mark[..g.b]
    case Hyphen3 => lead + "--" + mark + "-"
    case Cr2 => lead + "--" + mark + "--"
    case Lf2 => lead + "--" + mark + Close(g.final)[..|Close(g.final)| - 1]
    case Matched => lead + "--" + mark + Close(g.final)
  }

  /** A delimiter starts with CRLF unless it stands where the scan began. */
  ghost predicate Leads(lead: string, beg: nat, p: nat) {
    lead == "\r\n" || (lead == "" && beg == p)
  }

  ghost predicate Tracks(mark: Mark, buf: string, p: nat, g: Scanner, c: nat)
    requires Consistent(mark, g)
  {
    && p <= g.beg <= c <= |buf|
    && (g.mode != Start ==> exists lead :: Leads(lead, g.beg, p) && buf[g.beg..c] == Read(mark, lead, g))
  }

  lemma StepTracks(mark: Mark, buf: string, p: nat, g: Scanner, c: nat)
    requires Consistent(mark, g) && Tracks(mark, buf, p, g, c) && c < |buf| && g.mode != Matched
    ensures Tracks(mark, buf, p, Step(mark, g, c, buf[c]), c + 1)
  {
    hide Read;
    var r := Step(mark, g, c, buf[c]);
    if r.mode == Cr {
      ReadCr(mark, r);
      assert buf[c..c + 1] == "\r";
      assert Leads("\r\n", r.beg, p);
    } else if r.mode != Start {
      var lead :| Leads(lead, g.beg, p) && buf[g.beg..c] == Read(mark, lead, g);
      assert buf[g.beg..c + 1] == buf[g.beg..c] + [buf[c]];
      ReadGrows(mark, lead, g, c, buf[c]);
      assert Leads(if g.mode == Cr then "\r\n" else lead, r.beg, p);
    }
  }

  lemma ReadCr(mark: Mark, g: Scanner)
    requires Consistent(mark, g) && g.mode == Cr
    ensures Read(mark, "\r\n", g) == "\r"
  {
  }

  lemma ReadGrows(mark: Mark, lead: string, g: Scanner, c: nat, ch: char)
    requires Consistent(mark, g)
    requires var r := Step(mark, g, c, ch); r.mode != Start && r.mode != Cr && g.mode != Matched
    ensures var r := Step(mark, g, c, ch);
      Read(mark, if g.mode == Cr then "\r\n" else lead, r) == Read(mark, lead, g) + [ch]
  {
    var r := Step(mark, g, c, ch);
    match g.mode
    case Boundary => assert mark[..g.b] + [ch] == mark[..g.b + 1];
    case Hyphen2 => assert mark[..g.b] == mark;
    case Cr => assert "\r" + [ch] == "\r\n";
    case Hyphen => assert mark[..0] == "";
    case Cr2 => assert Close(true)[..3] == "--\r";
    case Lf2 => assert Close(g.final) == Close(g.final)[..|Close(g.final)| - 1] + "\n";
    case _ =>
  }

  lemma {:induction false} ScanTracks(mark: Mark, buf: string, p: nat, g: Scanner, c: nat)
    requires Consistent(mark, g) && Tracks(mark, buf, p, g, c)
    ensures var Stop(r, e) := Scan(mark, buf, g, c);
      Tracks(mark, buf, p, r, e) && !Goes(mark, buf, r, e)
    decreases |buf| - c
  {
    if Goes(mark, buf, g, c) {
      StepTracks(mark, buf, p, g, c);
      ScanTracks(mark, buf, p, Step(mark, g, c, buf[c]), c + 1);
    }
  }

  /** buf[beg..end] is a delimiter carrying the whole boundary; only the end of the buffer may
      cut its closing characters short, and never all of them. */
  ghost predicate IsDelimiter(mark: Mark, buf: string, p: nat, final: bool, beg: nat, end: nat) {
    && p <= beg < end <= |buf|
    && (exists lead, k ::
          && Leads(lead, beg, p) && 0 < k <= |Close(final)|
          && buf[beg..end] == lead + "--" + mark + Close(final)[..k]
          && (k < |Close(final)| ==> end == |buf|))
  }

  /** Whatever the input, a delimiter that the scanner reports really is one. */
  lemma FindSound(mark: Mark, buf: string, p: nat)
    requires p <= |buf|
    ensures var d := Find(mark, buf, p); d.Found? ==> IsDelimiter(mark, buf, p, d.final, d.beg, d.end)
  {
    var g0 := Initial(buf[p..], p);
    assert Tracks(mark, buf, p, g0, p) by {
      assert buf[p..p] == "" == Read(mark, "", g0);
      assert Leads("", p, p);
    }
    ScanTracks(mark, buf, p, g0, p);
    var Stop(g, c) := Scan(mark, buf, g0, p);
    if Verdict(g, c).Found? {
      var lead :| Leads(lead, g.beg, p) && buf[g.beg..c] == Read(mark, lead, g);
      var n := |Close(g.final)|;
      var k := match g.mode case Hyphen3 => 1 case Cr2 => 2 case Lf2 => n - 1 case _ => n;
      assert Close(g.final)[..n] == Close(g.final);
      assert "--\r\n"[..1] == "-" && "--\r\n"[..2] == "--";
      assert buf[g.beg..c] == lead + "--" + mark + Close(g.final)[..k];
    }
  }

  // ---- exactness on a part followed by a delimiter ----

  /** The scanner run over text alone, starting at position c. */
  function Over(mark: Mark, g: Scanner, c: nat, text: string): (r: Scanner)
    requires Consistent(mark, g)
    ensures Consistent(mark, r)
    decreases |text|
  {
    if text == "" then g else Over(mark, Step(mark, g, c, text[0]), c + 1, text[1..])
  }

  /** A part the scanner leaves ready for the delimiter that follows it: after reading it alone the
      scanner neither holds a half-read line end or delimiter nor has found one. */
  predicate Clean(mark: Mark, part: string) {
    Over(mark, Initial(part, 0), 0, part).mode in {Start, Lf}
  }

  /** Scanning text followed by at least |mark| more characters passes through Over. */
  lemma {:induction false} ScanOver(mark: Mark, buf: string, g: Scanner, c: nat, text: string)
    requires Consistent(mark, g) && c + |text| + |mark| <= |buf| && At(buf, c, text)
    requires Over(mark, g, c, text).mode != Matched
    ensures Scan(mark, buf, g, c) == Scan(mark, buf, Over(mark, g, c, text), c + |text|)
    decreases |text|
  {
    if text != "" {
      OverMatched(mark, g, c, text);
      AtHead(buf, c, text);
      ScanOver(mark, buf, Step(mark, g, c, buf[c]), c + 1, text[1..]);
    }
  }

  lemma {:induction false} OverMatched(mark: Mark, g: Scanner, c: nat, text: string)
    requires Consistent(mark, g)
    ensures g.mode == Matched ==> Over(mark, g, c, text) == g
    decreases |text|
  {
    if text != "" {
      OverMatched(mark, Step(mark, g, c, text[0]), c + 1, text[1..]);
    }
  }

  /** The position only enters the recorded part end. */
  lemma {:induction false} OverShift(mark: Mark, g: Scanner, h: Scanner, c: nat, d: nat, text: string)
    requires Consistent(mark, g) && h == g.(beg := h.beg)
    ensures Over(mark, h, d, text) == Over(mark, g, c, text).(beg := Over(mark, h, d, text).beg)
    decreases |text|
  {
    if text != "" {
      OverShift(mark, Step(mark, g, c, text[0]), Step(mark, h, d, text[0]), c + 1, d + 1, text[1..]);
    }
  }

  lemma OverLead(mark: Mark, g: Scanner, c: nat)
    requires Consistent(mark, g) && g.mode in {Start, Lf}
    ensures Over(mark, g, c, Crlf() + Dashes()) == Scanner(Boundary, 0, false, c)
  {
    var s := Crlf() + Dashes();
    Over4(mark, g, c, s);
  }

  lemma Over4(mark: Mark, g: Scanner, c: nat, s: string)
    requires Consistent(mark, g) && |s| == 4
    ensures Over(mark, g, c, s) ==
      Step(mark, Step(mark, Step(mark, Step(mark, g, c, s[0]), c + 1, s[1]), c + 2, s[2]), c + 3, s[3])
  {
    assert Over(mark, g, c, s) == Over(mark, Step(mark, g, c, s[0]), c + 1, s[1..]);
    Over3(mark, Step(mark, g, c, s[0]), c + 1, s[1..]);
  }

  lemma Over3(mark: Mark, g: Scanner, c: nat, s: string)
    requires Consistent(mark, g) && |s| == 3
    ensures Over(mark, g, c, s) == Step(mark, Step(mark, Step(mark, g, c, s[0]), c + 1, s[1]), c + 2, s[2])
  {
    assert Over(mark, g, c, s) == Over(mark, Step(mark, g, c, s[0]), c + 1, s[1..]);
    Over2(mark, Step(mark, g, c, s[0]), c + 1, s[1..]);
  }

  lemma Over2(mark: Mark, g: Scanner, c: nat, s: string)
    requires Consistent(mark, g) && |s| == 2
    ensures Over(mark, g, c, s) == Step(mark, Step(mark, g, c, s[0]), c + 1, s[1])
  {
    var h := Step(mark, g, c, s[0]);
    assert Over(mark, g, c, s) == Over(mark, h, c + 1, s[1..]);
    assert Over(mark, h, c + 1, s[1..]) == Over(mark, Step(mark, h, c + 1, s[1]), c + 2, s[1..][1..]);
  }

  lemma {:induction false} ScanMark(mark: Mark, buf: string, g: Scanner, c: nat)
    requires g.mode == Boundary && g.b < |mark| && !g.final
    requires At(buf, c, mark[g.b..]) && c + (|mark| - g.b) < |buf|
    ensures Scan(mark, buf, g, c) == Scan(mark, buf, g.(mode := Hyphen2, b := |mark|), c + (|mark| - g.b))
    decreases |mark| - g.b
  {
    AtHead(buf, c, mark[g.b..]);
    if g.b + 1 < |mark| {
      assert mark[g.b..][1..] == mark[g.b + 1..];
      ScanMark(mark, buf, Step(mark, g, c, buf[c]), c + 1);
    }
  }

  lemma ScanClose(mark: Mark, buf: string, g: Scanner, c: nat, final: bool)
    requires g.mode == Hyphen2 && Consistent(mark, g) && At(buf, c, Close(final))
    ensures Scan(mark, buf, g, c) == Stop(g.(mode := Matched, final := final), c + |Close(final)|)
  {
    AtHead(buf, c, Close(final));
    AtHead(buf, c + 1, Close(final)[1..]);
    var g1 := Step(mark, g, c, buf[c]);
    var g2 := Step(mark, g1, c + 1, buf[c + 1]);
    if final {
      AtHead(buf, c + 2, Close(final)[1..][1..]);
      AtHead(buf, c + 3, Close(final)[1..][1..][1..]);
      var g3 := Step(mark, g2, c + 2, buf[c + 2]);
      var g4 := Step(mark, g3, c + 3, buf[c + 3]);
      assert Scan(mark, buf, g3, c + 3) == Stop(g4, c + 4);
      assert Scan(mark, buf, g1, c + 1) == Scan(mark, buf, g2, c + 2) == Scan(mark, buf, g3, c + 3);
    } else {
      assert Scan(mark, buf, g1, c + 1) == Stop(g2, c + 2);
    }
  }

  /** The string s stands at position i of buf. */
  predicate At(buf: string, i: nat, s: string) {
    i + |s| <= |buf| && buf[i..i + |s|] == s
  }

  lemma AtBound(buf: string, i: nat, s: string)
    requires At(buf, i, s)
    ensures i + |s| <= |buf|
  {
  }

  lemma AtHead(buf: string, i: nat, s: string)
    requires s != "" && At(buf, i, s)
    ensures buf[i] == s[0] && At(buf, i + 1, s[1..])
  {
    assert buf[i] == buf[i..i + |s|][0];
    assert buf[i + 1..i + |s|] == s[1..];
  }

  lemma AtSplit(buf: string, i: nat, s: string, t: string, j: nat)
    requires At(buf, i, s + t) && j == i + |s|
    ensures At(buf, i, s) && At(buf, j, t)
  {
    assert buf[i..i + |s|] == buf[i..i + |s + t|][..|s|];
    assert buf[i + |s|..i + |s + t|] == buf[i..i + |s + t|][|s|..];
  }

  lemma AtJoin(buf: string, i: nat, s: string, t: string)
    requires At(buf, i, s) && At(buf, i + |s|, t)
    ensures At(buf, i, s + t)
  {
    assert buf[i..i + |s + t|] == buf[i..i + |s|] + buf[i + |s|..i + |s + t|];
  }

  /** From Start or Lf the scanner matches a delimiter and records its position. */
  lemma ScanDelimiter(mark: Mark, buf: string, g: Scanner, c: nat, final: bool)
    requires Consistent(mark, g) && g.mode in {Start, Lf}
    requires At(buf, c, Crlf() + Dashes()) && At(buf, c + 4, mark) && At(buf, c + 4 + |mark|, Close(final))
    ensures Scan(mark, buf, g, c) == Stop(Scanner(Matched, |mark|, final, c), c + 4 + |mark| + |Close(final)|)
  {
    hide Scan, Over, Step, Crlf, Dashes, Close, At;
    AtBound(buf, c + 4 + |mark|, Close(final));
    var h, m := Scanner(Boundary, 0, false, c), Scanner(Hyphen2, |mark|, false, c);
    OverLead(mark, g, c);
    ScanOver(mark, buf, g, c, Crlf() + Dashes());
    assert mark[0..] == mark;
    ScanMark(mark, buf, h, c + 4);
    assert h.(mode := Hyphen2, b := |mark|) == m;
    ScanClose(mark, buf, m, c + 4 + |mark|, final);
  }

  /** A delimiter whose closing characters are cut off after k of them by the end of the buffer. */
  lemma ScanCut(mark: Mark, buf: string, g: Scanner, c: nat, final: bool, k: nat)
    requires Consistent(mark, g) && g.mode == Hyphen2 && 0 < k < |Close(final)|
    requires c + k == |buf| && At(buf, c, Close(final)[..k])
    ensures Verdict(Scan(mark, buf, g, c).g, Scan(mark, buf, g, c).c) == Found(final, g.beg, |buf|)
  {
    hide Scan, At;
    CutChar(buf, c, Close(final), k, 0);
    var g1 := Step(mark, g, c, buf[c]);
    assert g1 == if final then g.(mode := Hyphen3, final := true) else g.(mode := Lf2);
    ScanTurn(mark, buf, g, c);
    ScanTurn(mark, buf, g1, c + 1);
    if k > 1 {
      CutChar(buf, c, Close(final), k, 1);
      var g2 := Step(mark, g1, c + 1, buf[c + 1]);
      assert g2 == g1.(mode := Cr2);
      ScanTurn(mark, buf, g2, c + 2);
      if k > 2 {
        CutChar(buf, c, Close(final), k, 2);
        var g3 := Step(mark, g2, c + 2, buf[c + 2]);
        assert g3 == g2.(mode := Lf2);
        ScanTurn(mark, buf, g3, c + 3);
      }
    }
  }

  lemma CutChar(buf: string, c: nat, s: string, k: nat, i: nat)
    requires i < k <= |s| && At(buf, c, s[..k])
    ensures c + i < |buf| && buf[c + i] == s[i]
  {
    assert buf[c..c + k][i] == s[..k][i];
  }

  /** One turn of the scanner loop, past the boundary. */
  lemma ScanTurn(mark: Mark, buf: string, g: Scanner, c: nat)
    requires Consistent(mark, g) && g.b == |mark| && g.mode != Matched && c <= |buf|
    ensures Scan(mark, buf, g, c) == if c < |buf| then Scan(mark, buf, Step(mark, g, c, buf[c]), c + 1) else Stop(g, c)
  {
  }

  /** The loop ends where no more than the boundary itself is left. */
  lemma Stopped(mark: Mark, buf: string, g: Scanner, c: nat)
    requires Consistent(mark, g) && g.mode == Boundary && g.b == 0 && c + |mark| == |buf|
    ensures Scan(mark, buf, g, c) == Stop(g, c)
  {
  }

  lemma {:induction false} BegAway(mark: Mark, buf: string, g: Scanner, c: nat, x: nat)
    requires Consistent(mark, g) && x < c <= |buf| && g.beg != x
    ensures Scan(mark, buf, g, c).g.beg != x
    decreases |buf| - c
  {
    if Goes(mark, buf, g, c) {
      BegAway(mark, buf, Step(mark, g, c, buf[c]), c + 1, x);
    }
  }

  /** A scanner that is not ready where a delimiter stands never reports that delimiter. */
  lemma {:induction false} ScanMisses(mark: Mark, buf: string, g: Scanner, c: nat, text: string)
    requires Consistent(mark, g) && c + |text| < |buf| && buf[c..c + |text|] == text
    requires g.beg != c + |text| && Over(mark, g, c, text).mode !in {Start, Lf}
    ensures Scan(mark, buf, g, c).g.beg != c + |text|
    decreases |text|
  {
    if Goes(mark, buf, g, c) {
      if text == "" {
        BegAway(mark, buf, Step(mark, g, c, buf[c]), c + 1, c);
      } else {
        assert buf[c] == text[0] && buf[c + 1..c + |text|] == text[1..];
        ScanMisses(mark, buf, Step(mark, g, c, buf[c]), c + 1, text[1..]);
      }
    }
  }

  /** The buffer continues at p with a part and a delimiter line. */
  ghost predicate PartAt(mark: Mark, buf: string, p: nat, part: string, final: bool) {
    var x := p + |part|;
    At(buf, p, part) && At(buf, x, Crlf() + Dashes()) && At(buf, x + 4, mark) && At(buf, x + 4 + |mark|, Close(final))
  }

  lemma EmptyIsClean(mark: Mark)
    ensures Clean(mark, "")
  {
  }

  lemma InitialAt(mark: Mark, buf: string, p: nat, part: string, final: bool)
    requires p <= |buf| && PartAt(mark, buf, p, part, final)
    ensures Initial(buf[p..], p) == Initial(part, 0).(beg := p)
  {
    if part == "" { AtHead(buf, p, Crlf() + Dashes()); } else { AtHead(buf, p, part); }
  }

  /** The scanner ends a part at the delimiter that follows it exactly when the part is clean. */
  lemma FindExact(mark: Mark, buf: string, p: nat, part: string, final: bool)
    requires p <= |buf| && PartAt(mark, buf, p, part, final)
    ensures Clean(mark, part) ==>
      Find(mark, buf, p) == Found(final, p + |part|, p + |part| + 4 + |mark| + |Close(final)|)
    ensures !Clean(mark, part) ==>
      Find(mark, buf, p).NotFound? || Find(mark, buf, p).beg != p + |part|
  {
    hide Scan, Over, Step, Close;
    var x := p + |part|;
    var g := Initial(buf[p..], p);
    InitialAt(mark, buf, p, part, final);
    OverShift(mark, Initial(part, 0), g, 0, p, part);
    if Clean(mark, part) {
      ScanOver(mark, buf, g, p, part);
      ScanDelimiter(mark, buf, Over(mark, g, p, part), x, final);
    } else {
      EmptyIsClean(mark);
      ScanMisses(mark, buf, g, p, part);
    }
  }

  /** A delimiter at the end of the buffer is found after a clean part even when the buffer cuts its closing
      characters short, but not without any of them. */
  lemma FindCut(mark: Mark, buf: string, p: nat, part: string, final: bool, k: nat)
    requires p <= |buf| && Clean(mark, part) && k < |Close(final)| && |buf| == p + |part| + 4 + |mark| + k
    requires At(buf, p, part) && At(buf, p + |part|, Crlf() + Dashes()) && At(buf, p + |part| + 4, mark)
    requires At(buf, p + |part| + 4 + |mark|, Close(final)[..k])
    ensures Find(mark, buf, p) == if k == 0 then NotFound else Found(final, p + |part|, |buf|)
  {
    hide Scan, Over, Step, Close;
    var x := p + |part|;
    var g := Initial(buf[p..], p);
    if part == "" { AtHead(buf, p, Crlf() + Dashes()); } else { AtHead(buf, p, part); }
    OverShift(mark, Initial(part, 0), g, 0, p, part);
    ScanOver(mark, buf, g, p, part);
    var o := Over(mark, g, p, part);
    var h := Scanner(Boundary, 0, false, x);
    OverLead(mark, o, x);
    ScanOver(mark, buf, o, x, Crlf() + Dashes());
    assert mark[0..] == mark;
    if k == 0 {
      Stopped(mark, buf, h, x + 4);
    } else {
      ScanMark(mark, buf, h, x + 4);
      ScanCut(mark, buf, h.(mode := Hyphen2, b := |mark|), x + 4 + |mark|, final, k);
    }
  }

  // ---- the splitter ----

  /** The part texts handed to parseSinglePart, and whether the closing delimiter was reached. */
  datatype Parts = Parts(texts: seq<string>, complete: bool)

  function SplitFrom(mark: Mark, buf: string, p: nat): Parts
    requires p <= |buf|
    decreases |buf| - p
  {
    FindSound(mark, buf, p);
    match Find(mark, buf, p)
    case NotFound => Parts([], false)
    case Found(final, beg, end) =>
      if final then Parts([buf[p..beg]], true)
      else
        var rest := SplitFrom(mark, buf, end);
        Parts([buf[p..beg]] + rest.texts, rest.complete)
  }

  /** parseMultipart: text before the first delimiter is skipped, and that delimiter may even be a
      closing one. */
  function Split(mark: Mark, buf: string): Parts {
    FindSound(mark, buf, 0);
    match Find(mark, buf, 0)
    case NotFound => Parts([], false)
    case Found(_, _, end) => SplitFrom(mark, buf, end)
  }

  /** One turn of the splitting loop. */
  lemma SplitTurn(mark: Mark, buf: string, p: nat)
    requires p <= |buf|
    ensures Find(mark, buf, p).NotFound? ==> SplitFrom(mark, buf, p) == Parts([], false)
    ensures var d := Find(mark, buf, p); d.Found? ==>
      && p <= d.beg <= d.end <= |buf| && p < d.end
      && SplitFrom(mark, buf, p).texts == [buf[p..d.beg]] + (if d.final then [] else SplitFrom(mark, buf, d.end).texts)
      && SplitFrom(mark, buf, p).complete == (d.final || SplitFrom(mark, buf, d.end).complete)
  {
    FindSound(mark, buf, p);
  }

  /** Moving the head of what is left to the end of what is done. */
  lemma Shifted(a: seq<string>, x: string, b: seq<string>)
    ensures a + ([x] + b) == a + [x] + b
    ensures a + [x] + [] == a + [x]
  {
  }

  method ParseMultipart(mark: Mark, buf: string) returns (texts: seq<string>, complete: bool)
    ensures Parts(texts, complete) == Split(mark, buf)
  {
    texts, complete := [], false;
    var d := FindNextBoundary(mark, buf, 0);
    SplitTurn(mark, buf, 0);
    if d.NotFound? {
      return;
    }
    var p := d.end;
    hide Find, SplitFrom, Split;
    ghost var all := Split(mark, buf);
    while !complete
      invariant p <= |buf|
      invariant complete ==> all == Parts(texts, true)
      invariant !complete ==> all.complete == SplitFrom(mark, buf, p).complete
      invariant !complete ==> all.texts == texts + SplitFrom(mark, buf, p).texts
      decreases |buf| - p, !complete
    {
      d := FindNextBoundary(mark, buf, p);
      SplitTurn(mark, buf, p);
      if d.NotFound? {
        return;
      }
      Shifted(texts, buf[p..d.beg], if d.final then [] else SplitFrom(mark, buf, d.end).texts);
      texts := texts + [buf[p..d.beg]];
      p, complete := d.end, d.final;
    }
  }

  // ---- the printer and the round trip ----

  /** The parts branch of AmMimeBody::print, on the texts of the parts. */
  function Printed(mark: string, texts: seq<string>): string {
    if texts == [] then Dashes() + (mark + Close(true))
    else Dashes() + (mark + (Close(false) + (texts[0] + (Crlf() + Printed(mark, texts[1..])))))
  }

  /** Where a printed body stands, so does the delimiter it begins with. */
  lemma PrintedHead(mark: Mark, buf: string, i: nat, texts: seq<string>)
    requires At(buf, i, Printed(mark, texts))
    ensures At(buf, i, Dashes()) && At(buf, i + 2, mark) && At(buf, i + 2 + |mark|, Close(texts == []))
    ensures texts != [] ==> At(buf, i + 2 + |mark| + 2, texts[0] + (Crlf() + Printed(mark, texts[1..])))
  {
    hide At, Crlf, Dashes, Close, Printed;
    PrintedIs(mark, texts);
    if texts == [] {
      AtSplit(buf, i, Dashes(), mark + Close(true), i + 2);
      AtSplit(buf, i + 2, mark, Close(true), i + 2 + |mark|);
    } else {
      var rest := texts[0] + (Crlf() + Printed(mark, texts[1..]));
      AtSplit(buf, i, Dashes(), mark + (Close(false) + rest), i + 2);
      AtSplit(buf, i + 2, mark, Close(false) + rest, i + 2 + |mark|);
      AtSplit(buf, i + 2 + |mark|, Close(false), rest, i + 2 + |mark| + 2);
    }
  }

  lemma PrintedIs(mark: Mark, texts: seq<string>)
    ensures texts == [] ==> Printed(mark, texts) == Dashes() + (mark + Close(true))
    ensures texts != [] ==>
      Printed(mark, texts) == Dashes() + (mark + (Close(false) + (texts[0] + (Crlf() + Printed(mark, texts[1..])))))
  {
  }

  ghost predicate AllClean(mark: Mark, texts: seq<string>) {
    forall i :: 0 <= i < |texts| ==> Clean(mark, texts[i])
  }

  /** Splitting from inside a printed body, right after the delimiter before texts[0]. */
  lemma {:induction false} SplitFromPrinted(mark: Mark, buf: string, p: nat, texts: seq<string>)
    requires texts != [] && p <= |buf| && At(buf, p, texts[0] + (Crlf() + Printed(mark, texts[1..])))
    ensures SplitFrom(mark, buf, p) == Parts(texts, true) <==> AllClean(mark, texts)
    decreases |texts|
  {
    hide Find, Clean, Printed, Crlf, Dashes, Close;
    var rest, final := texts[1..], |texts| == 1;
    var x := p + |texts[0]|;
    PartFollows(mark, buf, p, texts);
    FindSound(mark, buf, p);
    FindExact(mark, buf, p, texts[0], final);
    if Clean(mark, texts[0]) {
      if !final {
        var e := x + 4 + |mark| + 2;
        SplitFromPrinted(mark, buf, e, rest);
        var r := SplitFrom(mark, buf, e);
        assert buf[p..x] == texts[0] && texts == [texts[0]] + rest;
        assert SplitFrom(mark, buf, p) == Parts([texts[0]] + r.texts, r.complete);
        TailEq(texts, r.texts);
      }
    } else if Find(mark, buf, p).Found? {
      var beg := Find(mark, buf, p).beg;
      assert SplitFrom(mark, buf, p).texts[0] == buf[p..beg];
      assert |buf[p..beg]| != |texts[0]|;
    }
  }

  lemma TailEq(texts: seq<string>, r: seq<string>)
    requires texts != []
    ensures [texts[0]] + r == texts <==> r == texts[1..]
  {
    if [texts[0]] + r == texts { assert ([texts[0]] + r)[1..] == r; }
  }

  lemma PartFollows(mark: Mark, buf: string, p: nat, texts: seq<string>)
    requires texts != [] && At(buf, p, texts[0] + (Crlf() + Printed(mark, texts[1..])))
    ensures PartAt(mark, buf, p, texts[0], |texts| == 1)
    ensures |texts| > 1 ==>
      At(buf, p + |texts[0]| + 4 + |mark| + 2, texts[1..][0] + (Crlf() + Printed(mark, texts[1..][1..])))
  {
    hide Printed, At, Crlf, Dashes, Close;
    var x := p + |texts[0]|;
    AtSplit(buf, p, texts[0], Crlf() + Printed(mark, texts[1..]), x);
    AtSplit(buf, x, Crlf(), Printed(mark, texts[1..]), x + 2);
    PrintedHead(mark, buf, x + 2, texts[1..]);
    AtJoin(buf, x, Crlf(), Dashes());
  }

  /** Round trip: splitting a printed body gives back its parts, in order and complete, exactly when
      every part is clean. */
  lemma SplitPrinted(mark: Mark, texts: seq<string>)
    requires texts != []
    ensures Split(mark, Printed(mark, texts)) == Parts(texts, true) <==> AllClean(mark, texts)
  {
    hide Find, SplitFrom, Printed, Clean;
    var buf := Printed(mark, texts);
    assert At(buf, 0, buf);
    PrintedHead(mark, buf, 0, texts);
    FirstDelimiter(mark, buf);
    SplitFromPrinted(mark, buf, 2 + |mark| + 2, texts);
  }

  /** A buffer may begin with its first delimiter. */
  lemma FirstDelimiter(mark: Mark, buf: string)
    requires At(buf, 0, Dashes()) && At(buf, 2, mark) && At(buf, 2 + |mark|, Close(false))
    ensures Find(mark, buf, 0) == Found(false, 0, 4 + |mark|)
  {
    AtHead(buf, 0, Dashes());
    AtHead(buf, 1, Dashes()[1..]);
    var g := Initial(buf, 0);
    assert buf[0..] == buf;
    var g1 := Step(mark, g, 0, buf[0]);
    assert Scan(mark, buf, g, 0) == Scan(mark, buf, g1, 1);
    var g2 := Step(mark, g1, 1, buf[1]);
    assert Scan(mark, buf, g1, 1) == Scan(mark, buf, g2, 2);
    assert mark[0..] == mark;
    ScanMark(mark, buf, g2, 2);
    ScanClose(mark, buf, Scanner(Hyphen2, |mark|, false, 0), 2 + |mark|, false);
  }

  /** A body holds a payload or parts; a part adds its headers to a body. */
  datatype Body = Body(payload: string, mark: string, parts: seq<Part>)
  datatype Part = Part(contentType: string, hdrs: string, body: Body)

  /** AmMimeBody::print */
  function Print(b: Body): string {
    if b.payload != "" then b.payload
    else if b.parts == [] then ""
    else Printed(b.mark, Texts(b.parts))
  }

  function Texts(parts: seq<Part>): (r: seq<string>)
    ensures |r| == |parts|
  {
    if parts == [] then []
    else
      var p := parts[0];
      ["Content-Type: " + p.contentType + Crlf() + p.hdrs + Crlf() + Print(p.body)] + Texts(parts[1..])
  }

  /** Printing a tree of bodies and splitting it at the top level gives back the printed parts,
      nested multiparts included, exactly when each printed part is clean for the outer boundary. */
  lemma SplitPrint(b: Body)
    requires b.payload == "" && b.parts != [] && b.mark != ""
    ensures Split(b.mark, Print(b)) == Parts(Texts(b.parts), true) <==> AllClean(b.mark, Texts(b.parts))
  {
    SplitPrinted(b.mark, Texts(b.parts));
  }

  // ---- sufficient conditions a sender can meet ----

  /** Every CR is followed by LF and no line starts with a hyphen. */
  ghost predicate PlainLines(part: string) {
    && (forall i :: 0 <= i < |part| && part[i] == '\r' ==> i + 1 < |part| && part[i + 1] == '\n')
    && (part != "" ==> part[0] != '-')
    && (forall i, j :: 0 <= i < j < |part| && j == i + 1 && part[i] == '\n' ==> part[j] != '-')
  }

  /** Parts with plain lines survive the round trip. */
  lemma PlainIsClean(mark: Mark, part: string)
    requires PlainLines(part)
    ensures Clean(mark, part)
  {
    PlainOver(mark, part, 0, Initial(part, 0));
    assert part[0..] == part;
  }

  lemma {:induction false} PlainOver(mark: Mark, part: string, k: nat, g: Scanner)
    requires PlainLines(part) && k <= |part| && Consistent(mark, g)
    requires g.mode == Start || (k > 0 && g.mode == Cr && part[k - 1] == '\r') || (k > 0 && g.mode == Lf && part[k - 1] == '\n')
    ensures Over(mark, g, k, part[k..]).mode in {Start, Lf}
    decreases |part| - k
  {
    if k < |part| {
      assert part[k..][0] == part[k] && part[k..][1..] == part[k + 1..];
      if g.mode == Lf { assert part[k] != '-'; }
      PlainOver(mark, part, k + 1, Step(mark, g, k, part[k]));
    }
  }

  /** A part that ends in a lone CR is lost: the scanner does not look again at the CR of the
      delimiter, so the delimiter after it is not seen. */
  lemma TrailingCrIsLost(mark: Mark, part: string)
    requires PlainLines(part)
    ensures !Clean(mark, part + "\r")
    ensures Split(mark, Printed(mark, [part + "\r"])) != Parts([part + "\r"], true)
  {
    var t := part + "\r";
    PlainIsClean(mark, part);
    OverLast(mark, Initial(part, 0), 0, part, '\r');
    if part == "" {
      assert t[1..] == "";
    } else {
      assert Initial(t, 0) == Initial(part, 0);
    }
    SplitPrinted(mark, [t]);
    assert !AllClean(mark, [t]) by { assert !Clean(mark, [t][0]); }
  }

  lemma {:induction false} OverLast(mark: Mark, g: Scanner, c: nat, text: string, ch: char)
    requires Consistent(mark, g)
    ensures Over(mark, g, c, text + [ch]) == Step(mark, Over(mark, g, c, text), c + |text|, ch)
    decreases |text|
  {
    if text == "" {
      assert (text + [ch])[1..] == "";
    } else {
      assert (text + [ch])[1..] == text[1..] + [ch];
      OverLast(mark, Step(mark, g, c, text[0]), c + 1, text[1..], ch);
    }
  }
}
