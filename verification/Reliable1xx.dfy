/** Reliable provisional responses (RFC 3262) as kept per dialog: RSeq numbering and the PRACK gates. */
module Reliable1xx {

  const MODULUS: int := 0x1_0000_0000
  type u32 = x: int | 0 <= x < MODULUS

  datatype Mode = Disabled | Supported | Required | Ignored

  /** What happened on the server side: a numbered 1xx went out, a PRACK came in while the extension was active,
      a 2xx to INVITE went out (gated says that the extension was active). */
  datatype Item = Provisional(rseq: int) | Pracked(rseq: int) | Success(gated: bool)

  /** log is the history, base the place in it where the current numbering started, seen the RSeq values
      reported to the session as client. */
  datatype Rel = Rel(mode: Mode, rseq: u32, confirmed: bool, first: u32, last: u32, log: seq<Item>, base: nat, seen: seq<int>)

  function Start(mode: Mode): Rel {
    Rel(mode, 0, false, 0, 0, [], 0, [])
  }

  function Logged(s: Rel, x: Item): Rel {
    s.(log := s.log + [x])
  }

  function Succ(x: u32): u32 {
    if x == MODULUS - 1 then 0 else x + 1
  }

  // ---- handlers ----

  /** A request: for INVITE which option-tag lists name 100rel, for PRACK the acknowledged RSeq. */
  datatype Request = Invite(supported: bool, required: bool) | Prack(rseq: u32) | OtherRequest

  /** ret 1 lets the request through; code is the error reply sent, 0 for none. */
  datatype RequestRes = RequestRes(s: Rel, ret: int, code: int)

  function RequestIn(s: Rel, req: Request): RequestRes {
    match req
    case Invite(supported, required) =>
      (match s.mode
       case Ignored => RequestRes(s, 1, 0)
       case Supported => RequestRes(if supported || required then s.(mode := Required) else s, 1, 0)
       case Required => if supported || required then RequestRes(s, 1, 0) else RequestRes(s, 0, 421)
       case Disabled => if required then RequestRes(s, 0, 420) else RequestRes(s, 1, 0))
    case Prack(r) => RequestRes(PrackIn(s, r), 1, 0)
    case OtherRequest => RequestRes(s, 1, 0)
  }

  function PrackIn(s: Rel, r: u32): Rel {
    if s.mode != Required then s
    else Logged(if s.first <= r <= s.rseq && r == s.rseq then s.(confirmed := true) else s, Pracked(r))
  }

  /** A reply about to be sent to an INVITE or to something else; hasRSeq and hasRequire are headers set by the application. */
  datatype Reply = Reply(invite: bool, code: int, hasRequire: bool, hasRSeq: bool)

  datatype Stamp = NoStamp | Stamp(rseq: u32)

  /** refused is the 491 exception; the other fields are the headers added. */
  datatype ReplyRes = ReplyRes(s: Rel, refused: bool, supported: bool, required: bool, stamp: Stamp)

  function Passed(s: Rel): ReplyRes {
    ReplyRes(s, false, false, false, NoStamp)
  }

  /** random is any value of the generator. */
  function ReplyOut(s: Rel, p: Reply, random: u32): ReplyRes {
    if s.mode == Ignored || !p.invite then Passed(if p.invite && 200 <= p.code < 300 then Logged(s, Success(false)) else s)
    else if 100 < p.code < 200 then
      if s.mode == Supported then Passed(s).(supported := !p.hasRequire)
      else if s.mode == Required then ProvisionalOut(s, p, random)
      else Passed(s)
    else if p.code < 300 && s.mode == Required && s.rseq != 0 && !s.confirmed then Passed(s).(refused := true)
    else Passed(if 200 <= p.code < 300 then Logged(s, Success(s.mode == Required)) else s)
  }

  function ProvisionalOut(s: Rel, p: Reply, random: u32): ReplyRes {
    if p.hasRSeq then ReplyRes(s, false, false, !p.hasRequire, NoStamp)
    else if s.rseq == 0 then
      var n := random % 1024 + 1;
      ReplyRes(Logged(s, Provisional(n)).(rseq := n, first := n, confirmed := false, base := |s.log|), false, false, !p.hasRequire, Stamp(n))
    else if !s.confirmed && s.first == s.rseq then Passed(s).(refused := true)
    else
      var n := Succ(s.rseq);
      ReplyRes(Logged(s, Provisional(n)).(rseq := n), false, false, !p.hasRequire, Stamp(n))
  }

  /** A reply received: to INVITE, to PRACK or to something else; required says that Require names 100rel. */
  datatype Answer = ToInvite(code: int, required: bool, rseq: u32) | ToPrack(code: int) | OtherReply

  /** ret 0 absorbs the reply; bye says that the session is torn down, told that onInvite1xxRel or onPrack2xx is called. */
  datatype AnswerRes = AnswerRes(s: Rel, ret: int, bye: bool, told: bool)

  /** open says that the dialog is Trying, Proceeding, Early or Connected. */
  function ReplyIn(s: Rel, open: bool, a: Answer): AnswerRes {
    if s.mode == Ignored || !open then AnswerRes(s, 1, false, false)
    else match a
      case ToInvite(code, required, rseq) =>
        if !(100 < code < 200) || s.mode == Disabled || (s.mode == Supported && !required) then AnswerRes(s, 1, false, false)
        else ProvisionalIn(s.(mode := Required), required, rseq)
      case ToPrack(code) =>
        if s.mode == Disabled then AnswerRes(s, 1, false, false)
        else AnswerRes(s, 0, code >= 300, 200 <= code < 300)
      case OtherReply => AnswerRes(s, 1, false, false)
  }

  function ProvisionalIn(s: Rel, required: bool, rseq: u32): AnswerRes {
    if !required || rseq == 0 then AnswerRes(s, 1, true, false)
    else if s.last < rseq then AnswerRes(s.(last := rseq, seen := s.seen + [rseq]), 1, false, true)
    else AnswerRes(s, 1, false, false)
  }

  // ---- what the history says ----

  function Count(g: seq<Item>): nat {
    if g == [] then 0 else Count(g[..|g| - 1]) + if g[|g| - 1].Provisional? then 1 else 0
  }

  function Wrapped(x: int): int {
    if x < MODULUS then x else x - MODULUS
  }

  /** The k-th numbered 1xx since the numbering started carries first + k, up to the 32-bit wrap to 0. */
  ghost predicate Numbered(g: seq<Item>, first: int) {
    forall i :: 0 <= i < |g| && g[i].Provisional? ==> g[i].rseq == Wrapped(first + Count(g[..i]))
  }

  /** Every numbered 1xx but the first, and every 2xx sent with the extension active, comes after a PRACK of the first. */
  ghost predicate Gated(g: seq<Item>, first: int) {
    forall j :: 0 < j < |g| && (g[j].Provisional? || g[j] == Success(true)) ==> Pracked(first) in g[..j]
  }

  ghost predicate Increasing(seen: seq<int>) {
    forall i, j :: 0 <= i < j < |seen| ==> seen[i] < seen[j]
  }

  /** The numbering that started at g[0]. */
  ghost predicate Numbering(g: seq<Item>, first: int, rseq: int, confirmed: bool) {
    && 1 <= first <= 1024
    && g != [] && g[0] == Provisional(first)
    && Numbered(g, first) && Gated(g, first)
    && rseq == Wrapped(first + Count(g) - 1)
    && 1 <= Count(g) <= MODULUS - first + 1
    && (confirmed <==> Pracked(first) in g)
    && (Count(g) > 1 ==> confirmed)
  }

  /** The history since the numbering started. */
  function Current(s: Rel): seq<Item> {
    if s.base <= |s.log| then s.log[s.base..] else []
  }

  ghost predicate Inv(s: Rel) {
    && s.base <= |s.log|
    && (if s.first == 0 then s.rseq == 0 && Count(s.log) == 0
        else Numbering(Current(s), s.first, s.rseq, s.confirmed))
    && Increasing(s.seen) && (if s.seen == [] then s.last == 0 else s.last == s.seen[|s.seen| - 1])
  }

  lemma Grow(g: seq<Item>, x: Item)
    ensures Count(g + [x]) == Count(g) + if x.Provisional? then 1 else 0
  {
    assert (g + [x])[..|g|] == g;
  }

  /** Items that are neither a 1xx nor the first acknowledgement keep the numbering. */
  lemma NumberingKept(g: seq<Item>, x: Item, first: int, rseq: int, confirmed: bool)
    requires Numbering(g, first, rseq, confirmed)
    requires !x.Provisional?
    requires x == Success(true) ==> confirmed
    ensures Numbering(g + [x], first, rseq, confirmed || x == Pracked(first))
  {
    Grow(g, x);
    Prefixes(g, x);
  }

  lemma NumberingNext(g: seq<Item>, first: int, rseq: u32, confirmed: bool)
    requires Numbering(g, first, rseq, confirmed)
    requires rseq != 0 && (confirmed || first != rseq)
    ensures Numbering(g + [Provisional(Succ(rseq))], first, Succ(rseq), confirmed)
  {
    Grow(g, Provisional(Succ(rseq)));
    Prefixes(g, Provisional(Succ(rseq)));
  }

  lemma Prefixes(g: seq<Item>, x: Item)
    ensures (g + [x])[..|g|] == g
    ensures forall i :: 0 <= i < |g| ==> (g + [x])[..i] == g[..i] && (g + [x])[i] == g[i]
  {
  }

  // ---- every handler keeps the invariant ----

  lemma LoggedSlice(s: Rel, x: Item)
    requires s.base <= |s.log|
    ensures Current(Logged(s, x)) == Current(s) + [x]
    ensures Count(Logged(s, x).log) == Count(s.log) + if x.Provisional? then 1 else 0
  {
    hide Count;
    Grow(s.log, x);
    assert (s.log + [x])[s.base..] == s.log[s.base..] + [x];
  }

  lemma PrackInv(s: Rel, r: u32)
    requires Inv(s)
    ensures Inv(PrackIn(s, r))
  {
    hide Numbering, Count, Increasing;
    LoggedSlice(s, Pracked(r));
    if s.mode == Required && s.first != 0 {
      assert s.confirmed || r == s.first <==> PrackIn(s, r).confirmed by { PrackOfFirst(s, r); }
      NumberingKept(Current(s), Pracked(r), s.first, s.rseq, s.confirmed);
    }
  }

  /** Once the numbering runs, a PRACK sets the flag exactly when it is for the first 1xx. */
  lemma PrackOfFirst(s: Rel, r: u32)
    requires Inv(s) && s.mode == Required && s.first != 0
    ensures PrackIn(s, r).confirmed <==> s.confirmed || r == s.first
  {
  }

  lemma ReplyOutInv(s: Rel, p: Reply, random: u32)
    requires Inv(s)
    ensures Inv(ReplyOut(s, p, random).s)
  {
    hide Inv, Logged, ProvisionalOut;
    SuccessInv(s, false);
    if s.rseq == 0 || s.confirmed {
      SuccessInv(s, true);
    }
    ProvisionalInv(s, p, random);
  }

  lemma SuccessInv(s: Rel, gated: bool)
    requires Inv(s)
    requires gated ==> s.rseq == 0 || s.confirmed
    ensures Inv(Logged(s, Success(gated)))
  {
    hide Numbering, Count, Increasing;
    LoggedSlice(s, Success(gated));
    if s.first != 0 {
      PendingOnlyFirst(s);
      NumberingKept(Current(s), Success(gated), s.first, s.rseq, s.confirmed);
    }
  }

  lemma ProvisionalInv(s: Rel, p: Reply, random: u32)
    requires Inv(s)
    ensures Inv(ProvisionalOut(s, p, random).s)
  {
    hide Numbering, Count, Increasing;
    if s.rseq == 0 {
      StartInv(s, random % 1024 + 1);
    } else if s.confirmed || s.first != s.rseq {
      LoggedSlice(s, Provisional(Succ(s.rseq)));
      NumberingNext(Current(s), s.first, s.rseq, s.confirmed);
    }
  }

  /** While the PRACK of the first 1xx is missing, the first is the only one sent. */
  lemma PendingOnlyFirst(s: Rel)
    requires Inv(s) && s.first != 0
    ensures !s.confirmed ==> s.rseq == s.first
  {
  }

  lemma StartInv(s: Rel, n: int)
    requires 1 <= n <= 1024
    ensures Numbering((s.log + [Provisional(n)])[|s.log|..], n, n, false)
  {
    var g := (s.log + [Provisional(n)])[|s.log|..];
    assert g == [] + [Provisional(n)];
    Grow([], Provisional(n));
    assert g[..0] == [];
  }

  // ---- runs ----

  datatype Action =
    | DoRequestIn(req: Request)
    | DoReplyOut(reply: Reply, random: u32)
    | DoReplyIn(open: bool, answer: Answer)
    | DoSetMode(mode: Mode)

  function Step(s: Rel, a: Action): Rel {
    match a
    case DoRequestIn(req) => RequestIn(s, req).s
    case DoReplyOut(reply, random) => ReplyOut(s, reply, random).s
    case DoReplyIn(open, answer) => ReplyIn(s, open, answer).s
    case DoSetMode(mode) => s.(mode := mode)
  }

  lemma StepInv(s: Rel, a: Action)
    requires Inv(s)
    ensures Inv(Step(s, a))
  {
    hide Numbering, Count, PrackIn, ReplyOut;
    match a
    case DoRequestIn(req) => if req.Prack? { PrackInv(s, req.rseq); }
    case DoReplyOut(reply, random) => ReplyOutInv(s, reply, random);
    case DoReplyIn(open, answer) =>
    case DoSetMode(mode) =>
  }

  function Run(s: Rel, acts: seq<Action>): Rel
    decreases |acts|
  {
    if acts == [] then s else Run(Step(s, acts[0]), acts[1..])
  }

  /** In any run, whatever the mode and however it changes: RSeq values are consecutive from a start in 1..1024,
      the second goes out only after a PRACK of the first, a 2xx with the extension active likewise, and the
      client side reports strictly increasing values. */
  lemma {:induction false} RunInv(s: Rel, acts: seq<Action>)
    requires Inv(s)
    ensures Inv(Run(s, acts))
    decreases |acts|
  {
    if acts != [] {
      StepInv(s, acts[0]);
      RunInv(Step(s, acts[0]), acts[1..]);
    }
  }

  lemma FreshRun(mode: Mode, acts: seq<Action>)
    ensures Inv(Run(Start(mode), acts))
  {
    RunInv(Start(mode), acts);
  }

  /** With the extension active a 2xx is refused exactly while a numbering runs whose first 1xx has no PRACK. */
  lemma SuccessGate(mode: Mode, acts: seq<Action>, p: Reply, random: u32)
    requires p.invite && 200 <= p.code < 300
    ensures var s := Run(Start(mode), acts);
      ReplyOut(s, p, random).refused <==>
        s.mode == Required && s.first != 0 && Pracked(s.first) !in Current(s)
  {
    FreshRun(mode, acts);
  }

  /** A further 1xx is refused under the same condition. */
  lemma ProvisionalGate(mode: Mode, acts: seq<Action>, p: Reply, random: u32)
    requires p.invite && 100 < p.code < 200 && !p.hasRSeq
    ensures var s := Run(Start(mode), acts);
      ReplyOut(s, p, random).refused <==>
        s.mode == Required && s.first != 0 && Pracked(s.first) !in Current(s)
  {
    FreshRun(mode, acts);
  }

  /** The numbering starts again only at the very beginning or after the 32-bit counter has run out. */
  lemma RestartsAfterWrap(mode: Mode, acts: seq<Action>)
    ensures var s := Run(Start(mode), acts);
      s.rseq == 0 <==> s.first == 0 || Count(Current(s)) == MODULUS - s.first + 1
  {
    FreshRun(mode, acts);
  }

  // ---- what the handlers do ----

  /** An INVITE is refused exactly when one side insists on the extension and the other does not offer it: 421 when
      this side does, 420 when the peer does. Otherwise, offered by both, it is active from then on. A PRACK is noted
      exactly while it is. */
  lemma RequestInDoes(s: Rel, req: Request)
    ensures var r := RequestIn(s, req);
      && (r.ret == 0 <==> r.code != 0)
      && (r.code == 421 <==> req == Invite(false, false) && s.mode == Required)
      && (r.code == 420 <==> req.Invite? && req.required && s.mode == Disabled)
      && r.code in {0, 420, 421}
      && (r.s.mode == Required <==> s.mode == Required || (req.Invite? && req != Invite(false, false) && s.mode == Supported))
      && (r.s.mode == Required || r.s.mode == s.mode)
      && r.s.log == s.log + (if req.Prack? && s.mode == Required then [Pracked(req.rseq)] else [])
      && (r.s.rseq, r.s.first, r.s.last, r.s.seen) == (s.rseq, s.first, s.last, s.seen)
  {
  }

  /** With the extension active every 1xx to an INVITE that is neither refused nor numbered by the application gets
      the next number, and only such. A refused reply leaves no trace. */
  lemma ReplyOutDoes(s: Rel, p: Reply, random: u32)
    ensures var r := ReplyOut(s, p, random);
      && (r.stamp.Stamp? <==> s.mode == Required && p.invite && 100 < p.code < 200 && !p.hasRSeq && !r.refused)
      && (r.stamp.Stamp? ==> r.s.log == s.log + [Provisional(r.stamp.rseq)] && r.s.rseq == r.stamp.rseq)
      && (!r.stamp.Stamp? ==> r.s.rseq == s.rseq && r.s.log == s.log + if Succeeds(p, r) then [Success(s.mode == Required)] else [])
      && (r.refused ==> r == Passed(s).(refused := true))
      && r.s.mode == s.mode
  {
  }

  /** A 2xx to an INVITE that goes out. */
  predicate Succeeds(p: Reply, r: ReplyRes) {
    p.invite && 200 <= p.code < 300 && !r.refused
  }

  /** In an open dialog with the extension not ignored, the session is told of a reliable 1xx exactly when its number is
      above all those it was told of, and the call is given up exactly when the 1xx is not reliable or not numbered
      although the extension is active, or a PRACK is rejected. */
  lemma ReplyInDoes(s: Rel, code: int, required: bool, rseq: u32)
    requires Inv(s) && s.mode != Ignored
    ensures var r, active := ReplyIn(s, true, ToInvite(code, required, rseq)), s.mode == Required || (s.mode == Supported && required);
      && r.ret == 1
      && (r.told <==> active && 100 < code < 200 && required && rseq > 0 && forall i :: 0 <= i < |s.seen| ==> s.seen[i] < rseq)
      && (r.bye <==> active && 100 < code < 200 && !(required && rseq > 0))
      && r.s.seen == s.seen + (if r.told then [rseq] else [])
      && r.s.log == s.log
    ensures var r := ReplyIn(s, true, ToPrack(code));
      && r.s == s && (r.ret == 0 <==> s.mode != Disabled)
      && (r.bye <==> s.mode != Disabled && code >= 300) && (r.told <==> s.mode != Disabled && 200 <= code < 300)
  {
  }

  /** The numbers of the 1xx in a history. */
  function Numbers(g: seq<Item>): seq<int> {
    if g == [] then [] else Numbers(g[..|g| - 1]) + if g[|g| - 1].Provisional? then [g[|g| - 1].rseq] else []
  }

  /** The RSeq headers a run puts into replies. */
  function Stamps(s: Rel, acts: seq<Action>): seq<int>
    decreases |acts|
  {
    if acts == [] then [] else Stamped(s, acts[0]) + Stamps(Step(s, acts[0]), acts[1..])
  }

  function Stamped(s: Rel, a: Action): seq<int> {
    if a.DoReplyOut? && ReplyOut(s, a.reply, a.random).stamp.Stamp? then [ReplyOut(s, a.reply, a.random).stamp.rseq] else []
  }

  lemma NumbersAdd(g: seq<Item>, x: Item)
    ensures Numbers(g + [x]) == Numbers(g) + if x.Provisional? then [x.rseq] else []
  {
    assert (g + [x])[..|g|] == g;
  }

  lemma StampedStep(s: Rel, a: Action)
    ensures Numbers(Step(s, a).log) == Numbers(s.log) + Stamped(s, a)
  {
    hide Numbers, ReplyOut, RequestIn;
    var g := Step(s, a).log;
    if a.DoReplyOut? { ReplyOutDoes(s, a.reply, a.random); }
    if a.DoRequestIn? { RequestInDoes(s, a.req); }
    if g != s.log {
      assert g == s.log + [g[|s.log|]];
      NumbersAdd(s.log, g[|s.log|]);
    }
    assert s.log + [] == s.log;
  }

  /** The headers sent are those the history tells of, in order. */
  lemma {:induction false} StampsAreLogged(s: Rel, acts: seq<Action>)
    ensures Numbers(Run(s, acts).log) == Numbers(s.log) + Stamps(s, acts)
    decreases |acts|
  {
    hide Step, Numbers, Stamped;
    if acts != [] {
      StampedStep(s, acts[0]);
      StampsAreLogged(Step(s, acts[0]), acts[1..]);
    }
  }

  lemma {:induction false} NumbersAre(g: seq<Item>, first: int, k: nat)
    requires Numbered(g, first) && k < Count(g)
    ensures |Numbers(g)| == Count(g) && Numbers(g)[k] == Wrapped(first + k)
    decreases |g|
  {
    var h := g[..|g| - 1];
    CountsNumbers(g);
    CountsNumbers(h);
    forall i | 0 <= i < |h| && h[i].Provisional? ensures h[i].rseq == Wrapped(first + Count(h[..i])) {
      assert h[i] == g[i] && h[..i] == g[..i];
    }
    if k < Count(h) { NumbersAre(h, first, k); }
  }

  lemma {:induction false} CountsNumbers(g: seq<Item>)
    ensures |Numbers(g)| == Count(g)
  {
    if g != [] { CountsNumbers(g[..|g| - 1]); }
  }

  lemma {:induction false} CountSplit(g: seq<Item>, b: nat)
    requires b <= |g|
    ensures Count(g) == Count(g[..b]) + Count(g[b..])
    ensures Numbers(g) == Numbers(g[..b]) + Numbers(g[b..])
    decreases |g|
  {
    if b < |g| {
      var n := |g| - 1;
      assert g[..n][..b] == g[..b] && g[..n][b..] == g[b..][..n - b];
      CountSplit(g[..n], b);
    } else {
      assert g[..b] == g;
    }
  }

  /** A numbering that is not the first comes after one that has used up the 32 bits. */
  ghost predicate WornOut(s: Rel) {
    s.base <= |s.log| && (Count(s.log[..s.base]) == 0 || Count(s.log[..s.base]) > MODULUS - 1024)
  }

  lemma WornOutStep(s: Rel, a: Action)
    requires Inv(s) && WornOut(s)
    ensures WornOut(Step(s, a))
  {
    var r := Step(s, a);
    if r.base == s.base {
      assert r.log[..r.base] == s.log[..s.base] by { Appends(s, a); }
    } else {
      Restarts(s, a);
      CountSplit(s.log, s.base);
    }
  }

  lemma Appends(s: Rel, a: Action)
    ensures s.log <= Step(s, a).log
  {
  }

  lemma Restarts(s: Rel, a: Action)
    requires Inv(s) && Step(s, a).base != s.base
    ensures var r := Step(s, a); r.base == |s.log| && r.base <= |r.log| && r.log[..r.base] == s.log
    ensures (s.first == 0 && Count(s.log) == 0) || Count(Current(s)) > MODULUS - 1024
  {
  }

  lemma {:induction false} WornOutRun(s: Rel, acts: seq<Action>)
    requires Inv(s) && WornOut(s)
    ensures WornOut(Run(s, acts))
    decreases |acts|
  {
    hide Inv, WornOut, Step;
    if acts != [] {
      StepInv(s, acts[0]);
      WornOutStep(s, acts[0]);
      WornOutRun(Step(s, acts[0]), acts[1..]);
    }
  }

  /** The RSeq headers of a dialog count up by one from a start in 1..1024, for as long as the 32 bits last. */
  lemma HeadersConsecutive(mode: Mode, acts: seq<Action>, k: nat)
    requires var h := Stamps(Start(mode), acts); k < |h| <= MODULUS - 1024
    ensures var h := Stamps(Start(mode), acts); 1 <= h[0] <= 1024 && h[k] == h[0] + k
  {
    hide Run, Stamps, Numbering, Count, Numbers;
    var s := Run(Start(mode), acts);
    FreshRun(mode, acts);
    assert WornOut(Run(Start(mode), acts)) by { EmptyHistory(); WornOutRun(Start(mode), acts); }
    StampsAreLogged(Start(mode), acts);
    EmptyHistory();
    assert [] + Stamps(Start(mode), acts) == Stamps(Start(mode), acts);
    CountsNumbers(s.log);
    CountSplit(s.log, s.base);
    CountsNumbers(s.log[..s.base]);
    CurrentNumbers(s, 0);
    CurrentNumbers(s, k);
  }

  lemma EmptyHistory()
    ensures Count([]) == 0 && Numbers([]) == []
  {
  }

  lemma CurrentNumbers(s: Rel, k: nat)
    requires Inv(s) && s.first != 0 && k < Count(Current(s)) <= MODULUS - 1024
    ensures |Numbers(Current(s))| == Count(Current(s)) && Numbers(Current(s))[k] == s.first + k && 1 <= s.first <= 1024
  {
    NumbersAre(Current(s), s.first, k);
  }

  const RINGING: Reply := Reply(true, 180, false, false)
  const OK: Reply := Reply(true, 200, false, false)

  /** "No 2xx while the last reliable 1xx lacks its PRACK" is not what the code keeps: the flag is not reset when
      the second 1xx goes out. */
  lemma LaterPrackNotAwaited()
    ensures exists acts :: var s := Run(Start(Required), acts);
      s.rseq == 2 && Pracked(2) !in s.log && !ReplyOut(s, OK, 0).refused
  {
    var acts := [DoReplyOut(RINGING, 0), DoRequestIn(Prack(1)), DoReplyOut(RINGING, 0)];
    var s1 := Step(Start(Required), acts[0]);
    var s2 := Step(s1, acts[1]);
    var s3 := Step(s2, acts[2]);
    assert acts[1..][1..] == acts[2..] && acts[2..][1..] == [];
    assert Run(Start(Required), acts) == Run(s1, acts[1..]) == Run(s2, acts[2..]) == s3;
    assert s3.log == [Provisional(1), Pracked(1), Provisional(2)];
  }

  // ---- the object ----

  /** Am100rel. */
  class Tracker {
    var mode: Mode
    var rseq: u32
    var confirmed: bool
    var first: u32
    var last: u32
    ghost var log: seq<Item>
    ghost var base: nat
    ghost var seen: seq<int>

    ghost function View(): Rel
      reads this
    {
      Rel(mode, rseq, confirmed, first, last, log, base, seen)
    }

    constructor (configured: Mode)
      ensures View() == Start(configured) && Inv(View())
    {
      mode, rseq, confirmed, first, last := configured, 0, false, 0, 0;
      log, base, seen := [], 0, [];
    }

    method OnRequestIn(req: Request) returns (ret: int, code: int)
      modifies this
      ensures RequestRes(View(), ret, code) == RequestIn(old(View()), req)
    {
      ret, code := 1, 0;
      if mode == Ignored {
        return;
      }
      match req {
        case Invite(supported, required) =>
          match mode {
            case Supported =>
              if supported || required {
                mode := Required;
              }
            case Required =>
              if !(supported || required) {
                ret, code := 0, 421;
              }
            case Disabled =>
              if required {
                ret, code := 0, 420;
              }
            case Ignored =>
          }
        case Prack(r) =>
          if mode == Required {
            if first <= r <= rseq {
              if r == rseq {
                confirmed := true;
              }
            }
            log := log + [Pracked(r)];
          }
        case OtherRequest =>
      }
    }

    method OnReplyOut(p: Reply, random: u32) returns (refused: bool, supported: bool, required: bool, stamp: Stamp)
      modifies this
      ensures ReplyRes(View(), refused, supported, required, stamp) == ReplyOut(old(View()), p, random)
    {
      refused, supported, required, stamp := false, false, false, NoStamp;
      if mode != Ignored && p.invite {
        if 100 < p.code < 200 {
          if mode == Supported {
            supported := !p.hasRequire;
          } else if mode == Required {
            refused, required, stamp := Number(p, random);
          }
          return;
        } else if p.code < 300 && mode == Required {
          if rseq != 0 && !confirmed {
            refused := true;
            return;
          }
        }
      }
      if p.invite && 200 <= p.code < 300 {
        log := log + [Success(mode == Required)];
      }
    }

    /** The REL100_REQUIRE case of a 1xx: a refused reply is dropped with whatever headers it had. */
    method Number(p: Reply, random: u32) returns (refused: bool, required: bool, stamp: Stamp)
      modifies this
      ensures ReplyRes(View(), refused, false, required, stamp) == ProvisionalOut(old(View()), p, random)
    {
      refused, required, stamp := false, !p.hasRequire, NoStamp;
      if p.hasRSeq {
        return;
      }
      if rseq == 0 {
        rseq := random % 1024 + 1;
        confirmed := false;
        first := rseq;
        base := |log|;
      } else {
        if !confirmed && first == rseq {
          return true, false, NoStamp;
        }
        rseq := Succ(rseq);
      }
      stamp := Stamp(rseq);
      log := log + [Provisional(rseq)];
    }

    method OnReplyIn(open: bool, a: Answer) returns (ret: int, bye: bool, told: bool)
      modifies this
      ensures AnswerRes(View(), ret, bye, told) == ReplyIn(old(View()), open, a)
    {
      ret, bye, told := 1, false, false;
      if mode == Ignored || !open {
        return;
      }
      match a {
        case ToInvite(code, required, r) =>
          if 100 < code < 200 {
            if mode == Supported {
              if !required {
                return;
              }
              mode := Required;
            }
            if mode == Required {
              if !required || r == 0 {
                bye := true;
              } else if last < r {
                last := r;
                seen := seen + [r];
                told := true;
              }
            }
          }
        case ToPrack(code) =>
          if mode != Disabled {
            ret := 0;
            if 300 <= code {
              bye := true;
            } else if 200 <= code {
              told := true;
            }
          }
        case OtherReply =>
      }
    }
  }
}
