/** The SDP offer/answer state machine of a dialog (RFC 3264, section 13.2.1 of RFC 3261). */
module OfferAnswer {

  import opened Collections

  datatype Phase = Idle | OfferRecved | OfferSent | Completed

  datatype Verb = Invite | Update | Prack | Ack | Info | Cancel | Other

  /** The SDP part of a body: whether it has any content, parses, and has a media line. */
  datatype SdpPart = NoSdp | Sdp(filled: bool, parses: bool, media: bool)

  /** filled is !AmMimeBody::empty(); csta says that a CSTA part is present. */
  datatype Body = Body(filled: bool, sdp: SdpPart, csta: bool)

  /** Direction of an accepted session description. */
  datatype Dir = Rx | Tx

  /** History: accepted bodies, resets, and states set by an application, with the CSeq then in force. */
  datatype Item = Offer(dir: Dir, cseq: int) | Answer(dir: Dir) | Reset | Forced(phase: Phase, cseq: int)

  datatype Oa = Oa(phase: Phase, saved: Phase, cseq: int, hist: seq<Item>)

  const START: Oa := Oa(Idle, Idle, 0, [])

  /** A handler's new state and return value (0 is success). */
  datatype Res = Res(oa: Oa, ret: int)

  // ---- building blocks ----

  function Saved(o: Oa): Oa {
    o.(saved := o.phase)
  }

  function Cleared(o: Oa): Oa {
    o.(phase := Idle, cseq := 0, hist := o.hist + [Reset])
  }

  function TransitionalCleared(o: Oa): Oa {
    if o.phase != Completed then Cleared(o) else o
  }

  /** setState, which an application may call through the dialog. */
  function StateSet(o: Oa, p: Phase): Oa {
    o.(phase := p, hist := o.hist + [Forced(p, o.cseq)])
  }

  /** dlg->onSdpCompleted(): a refusal by the session clears the offer/answer state. */
  function SdpCompleted(o: Oa, refused: bool): Res {
    if refused then Res(Cleared(o), -1) else Res(o, 0)
  }

  function StateChecked(o: Oa, refused: bool): Res {
    if o.saved != o.phase && o.phase == Completed then SdpCompleted(o, refused) else Res(o, 0)
  }

  /** onRxSdp accepts the body itself, whatever the state. */
  predicate Readable(b: Body) {
    match b.sdp
    case NoSdp => !b.filled || b.csta
    case Sdp(_, parses, media) => parses && media
  }

  function RxSdp(o: Oa, cseq: int, b: Body): Res {
    if !Readable(b) then Res(o, 400)
    else match o.phase
      case Idle | Completed => Res(o.(phase := OfferRecved, cseq := cseq, hist := o.hist + [Offer(Rx, cseq)]), 0)
      case OfferSent => Res(o.(phase := Completed, hist := o.hist + [Answer(Rx)]), 0)
      case OfferRecved => Res(o, 400)
  }

  function TxSdp(o: Oa, cseq: int, filled: bool): Res {
    if !filled then Res(o, -1)
    else match o.phase
      case Idle | Completed => Res(o.(phase := OfferSent, cseq := cseq, hist := o.hist + [Offer(Tx, cseq)]), 0)
      case OfferRecved => Res(o.(phase := Completed, hist := o.hist + [Answer(Tx)]), 0)
      case OfferSent => Res(o, -1)
  }

  // ---- handlers ----

  predicate CarriesSdp(v: Verb) {
    v in {Invite, Update, Ack, Prack}
  }

  function RequestIn(o0: Oa, v: Verb, cseq: int, b: Body, refused: bool): Res {
    var o := Saved(o0);
    var r :=
      if CarriesSdp(v) && b.filled then
        if b.sdp.Sdp? then RxSdp(o, cseq, b) else Res(o, if b.csta then 0 else 400)
      else Res(o, 0);
    var c := StateChecked(r.oa, refused);
    var err := if c.ret != 0 then 500 else r.ret;
    Res(if v == Ack && cseq == c.oa.cseq then TransitionalCleared(c.oa) else c.oa, if err != 0 then -1 else 0)
  }

  function ReplyIn(o: Oa, v: Verb, cseq: int, code: int, b: Body, refused: bool): Res {
    if code >= 300 && cseq == o.cseq then Res(TransitionalCleared(o), 0)
    else if v in {Invite, Update, Prack} && b.filled && (b.sdp.Sdp? || b.csta) then
      if o.phase in {Completed, OfferRecved} && cseq == o.cseq then
        Res(if code == 200 then SdpCompleted(o, refused).oa else o, 0)
      else Res(StateChecked(RxSdp(Saved(o), cseq, b).oa, refused).oa, 0)
    else Res(o, 0)
  }

  /** getSdpBody; `gives` is the session's answer to getSdpOffer or getSdpAnswer. */
  predicate Generates(o: Oa, gives: bool) {
    o.phase != OfferSent && gives
  }

  function RequestOut(o: Oa, v: Verb, cseq: int, b: Body, gives: bool): Res {
    var generate := (b.sdp.Sdp? && !b.sdp.filled)
                 || (b.sdp.NoSdp? && !b.csta && v in {Prack, Ack} && o.phase == OfferRecved);
    if generate && !Generates(o, gives) then Res(Saved(o), -1)
    else
      var has := generate || (b.sdp.Sdp? && b.sdp.filled);
      if has || (b.csta && v != Info) then TxSdp(Saved(o), cseq, b.filled || generate) else Res(Saved(o), 0)
  }

  /** Whether onReplyOut tries to generate a body. */
  predicate Forces(o: Oa, v: Verb, code: int, b: Body) {
    || (b.sdp.Sdp? && !b.sdp.filled)
    || (b.sdp.NoSdp? && !b.csta && v == Invite && (code == 183 || 200 <= code < 300) && o.phase != OfferSent)
    || (b.sdp.NoSdp? && !b.csta && v == Update && 200 <= code < 300 && o.phase == OfferRecved)
  }

  /** Whether onReplyOut hands a body to onTxSdp; made says that one was generated. */
  predicate Offers(o: Oa, v: Verb, cseq: int, code: int, b: Body, made: bool) {
    var repeated := v == Invite && code < 300 && o.phase in {Completed, OfferSent} && cseq == o.cseq;
    made || (b.sdp.Sdp? && b.sdp.filled && !repeated) || (v != Info && b.csta)
  }

  /** A missing body is tolerated in a 183, and in a 200 to INVITE once completed. */
  predicate Tolerated(o: Oa, v: Verb, code: int) {
    v == Invite && (code == 183 || (code == 200 && o.phase == Completed))
  }

  function ReplyOut(o: Oa, v: Verb, cseq: int, code: int, b: Body, gives: bool, part: bool): Res {
    var force := Forces(o, v, code, b);
    if force && !Generates(o, gives) && !Tolerated(o, v, code) then Res(Saved(o), -1)
    else if force && Generates(o, gives) && b.sdp.NoSdp? && !part then Res(Saved(o), -1)
    else
      var made := force && Generates(o, gives);
      var r := if Offers(o, v, cseq, code, b, made) then TxSdp(Saved(o), cseq, b.filled || made) else Res(Saved(o), 0);
      if r.ret != 0 then Res(r.oa, -1)
      else Res(if code >= 300 && cseq == r.oa.cseq then TransitionalCleared(r.oa) else r.oa, 0)
  }

  function RequestSent(o: Oa, v: Verb, cseq: int, refused: bool): Res {
    var c := StateChecked(o, refused);
    Res(if v == Ack && cseq == c.oa.cseq then TransitionalCleared(c.oa) else c.oa, c.ret)
  }

  function ReplySent(o: Oa, v: Verb, cseq: int, code: int, refused: bool): Res {
    var c := StateChecked(o, refused);
    Res(if code >= 200 && v != Cancel && v != Invite && cseq == c.oa.cseq then TransitionalCleared(c.oa) else c.oa, c.ret)
  }

  function NoAck(o: Oa, cseq: int): Res {
    Res(if cseq == o.cseq then TransitionalCleared(o) else o, 0)
  }

  // ---- the exchange history ----

  /** The state a history ends in. */
  function PhaseOf(hist: seq<Item>): Phase {
    if hist == [] then Idle
    else match hist[|hist| - 1]
      case Offer(Rx, _) => OfferRecved
      case Offer(Tx, _) => OfferSent
      case Answer(_) => Completed
      case Reset => Idle
      case Forced(phase, _) => phase
  }

  function Opposite(d: Dir): Dir {
    if d == Rx then Tx else Rx
  }

  /** The direction of the offer that an item leaves outstanding. */
  function Outstanding(x: Item): Option<Dir> {
    match x
    case Offer(dir, _) => Some(dir)
    case Forced(OfferRecved, _) => Some(Rx)
    case Forced(OfferSent, _) => Some(Tx)
    case _ => None
  }

  /** Every answer directly follows an offer of the opposite direction, and no offer directly follows an
      offer: at most one is outstanding. An application may declare an offer to be outstanding. */
  ghost predicate Paired(hist: seq<Item>) {
    && (forall i :: 0 <= i < |hist| && hist[i].Answer? ==> i > 0 && Outstanding(hist[i - 1]) == Some(Opposite(hist[i].dir)))
    && (forall i :: 0 < i < |hist| && hist[i].Offer? ==> Outstanding(hist[i - 1]) == None)
  }

  /** The CSeq of the offer that opened the current exchange, 0 when there is none. */
  ghost function CSeqOf(hist: seq<Item>): int
    requires Paired(hist)
  {
    if hist == [] then 0
    else match hist[|hist| - 1]
      case Offer(_, cseq) => cseq
      case Answer(_) => hist[|hist| - 2].cseq
      case Reset => 0
      case Forced(_, cseq) => cseq
  }

  ghost predicate Inv(o: Oa) {
    Paired(o.hist) && o.phase == PhaseOf(o.hist) && o.cseq == CSeqOf(o.hist)
  }

  lemma ResetInv(o: Oa)
    requires Inv(o)
    ensures Inv(Cleared(o)) && Inv(TransitionalCleared(o)) && Inv(Saved(o))
    ensures forall refused :: Inv(StateChecked(o, refused).oa) && Inv(SdpCompleted(o, refused).oa)
  {
    var h := o.hist + [Reset];
    assert forall i :: 0 <= i < |o.hist| ==> h[i] == o.hist[i];
  }

  lemma SetInv(o: Oa, p: Phase)
    requires Inv(o)
    ensures Inv(StateSet(o, p))
  {
    var h := StateSet(o, p).hist;
    assert forall i :: 0 <= i < |o.hist| ==> h[i] == o.hist[i];
  }

  lemma RxInv(o: Oa, cseq: int, b: Body)
    requires Inv(o)
    ensures Inv(RxSdp(o, cseq, b).oa)
  {
    var h := RxSdp(o, cseq, b).oa.hist;
    assert forall i :: 0 <= i < |o.hist| ==> h[i] == o.hist[i];
  }

  lemma TxInv(o: Oa, cseq: int, filled: bool)
    requires Inv(o)
    ensures Inv(TxSdp(o, cseq, filled).oa)
  {
    var h := TxSdp(o, cseq, filled).oa.hist;
    assert forall i :: 0 <= i < |o.hist| ==> h[i] == o.hist[i];
  }

  // ---- runs ----

  datatype Action =
    | DoRequestIn(v: Verb, cseq: int, b: Body, refused: bool)
    | DoReplyIn(v: Verb, cseq: int, code: int, b: Body, refused: bool)
    | DoRequestOut(v: Verb, cseq: int, b: Body, gives: bool)
    | DoReplyOut(v: Verb, cseq: int, code: int, b: Body, gives: bool, part: bool)
    | DoRequestSent(v: Verb, cseq: int, refused: bool)
    | DoReplySent(v: Verb, cseq: int, code: int, refused: bool)
    | DoNoAck(cseq: int)
    | DoSetState(phase: Phase)

  function Step(o: Oa, a: Action): Res {
    match a
    case DoRequestIn(v, cseq, b, refused) => RequestIn(o, v, cseq, b, refused)
    case DoReplyIn(v, cseq, code, b, refused) => ReplyIn(o, v, cseq, code, b, refused)
    case DoRequestOut(v, cseq, b, gives) => RequestOut(o, v, cseq, b, gives)
    case DoReplyOut(v, cseq, code, b, gives, part) => ReplyOut(o, v, cseq, code, b, gives, part)
    case DoRequestSent(v, cseq, refused) => RequestSent(o, v, cseq, refused)
    case DoReplySent(v, cseq, code, refused) => ReplySent(o, v, cseq, code, refused)
    case DoNoAck(cseq) => NoAck(o, cseq)
    case DoSetState(phase) => Res(StateSet(o, phase), 0)
  }

  lemma StepInv(o: Oa, a: Action)
    requires Inv(o)
    ensures Inv(Step(o, a).oa)
  {
    hide Inv;
    match a
    case DoRequestIn(v, cseq, b, refused) =>
      ResetInv(o);
      RxInv(Saved(o), cseq, b);
      ResetInv(RxSdp(Saved(o), cseq, b).oa);
      ResetInv(Saved(o));
      ResetInv(StateChecked(Saved(o), refused).oa);
      ResetInv(StateChecked(RxSdp(Saved(o), cseq, b).oa, refused).oa);
    case DoReplyIn(v, cseq, code, b, refused) =>
      ResetInv(o);
      RxInv(Saved(o), cseq, b);
      ResetInv(RxSdp(Saved(o), cseq, b).oa);
    case DoRequestOut(v, cseq, b, gives) =>
      ResetInv(o);
      TxInv(Saved(o), cseq, true);
      TxInv(Saved(o), cseq, false);
    case DoReplyOut(v, cseq, code, b, gives, part) =>
      ResetInv(o);
      ResetInv(Saved(o));
      TxInv(Saved(o), cseq, true);
      TxInv(Saved(o), cseq, false);
      ResetInv(TxSdp(Saved(o), cseq, true).oa);
      ResetInv(TxSdp(Saved(o), cseq, false).oa);
    case DoRequestSent(v, cseq, refused) =>
      ResetInv(o);
      ResetInv(StateChecked(o, refused).oa);
    case DoReplySent(v, cseq, code, refused) =>
      ResetInv(o);
      ResetInv(StateChecked(o, refused).oa);
    case DoNoAck(cseq) => ResetInv(o);
    case DoSetState(phase) => SetInv(o, phase);
  }

  function Run(o: Oa, acts: seq<Action>): Oa
    decreases |acts|
  {
    if acts == [] then o else Run(Step(o, acts[0]).oa, acts[1..])
  }

  /** In any run of the handlers the accepted bodies pair offers with answers of the opposite direction,
      at most one offer is outstanding, and the state says which. */
  lemma {:induction false} RunInv(o: Oa, acts: seq<Action>)
    requires Inv(o)
    ensures Inv(Run(o, acts))
    decreases |acts|
  {
    if acts != [] {
      StepInv(o, acts[0]);
      RunInv(Step(o, acts[0]).oa, acts[1..]);
    }
  }

  // ---- what each handler takes up ----

  /** The direction of the offer a history leaves outstanding. */
  function Pending(hist: seq<Item>): Option<Dir> {
    if hist == [] then None else Outstanding(hist[|hist| - 1])
  }

  /** What a description that travels in direction d means after a history: the answer to an offer of the other side,
      or a new offer, or nothing while an offer of the same side is outstanding. */
  function Taken(hist: seq<Item>, d: Dir, cseq: int): seq<Item> {
    match Pending(hist)
    case None => [Offer(d, cseq)]
    case Some(e) => if e == d then [] else [Answer(d)]
  }

  /** The session's say on a completed exchange. */
  function Settled(items: seq<Item>, refused: bool): seq<Item> {
    if refused && items != [] && items[0].Answer? then items + [Reset] else items
  }

  lemma PendingIs(o: Oa)
    requires Inv(o)
    ensures Pending(o.hist) == (match o.phase case OfferRecved => Some(Rx) case OfferSent => Some(Tx) case _ => None)
  {
  }

  lemma RxTakes(o: Oa, cseq: int, b: Body)
    requires Inv(o)
    ensures RxSdp(o, cseq, b).oa.hist == o.hist + if Readable(b) then Taken(o.hist, Rx, cseq) else []
    ensures RxSdp(o, cseq, b).ret == 0 <==> Readable(b) && Taken(o.hist, Rx, cseq) != []
  {
    PendingIs(o);
    assert o.hist + [] == o.hist;
  }

  lemma TxTakes(o: Oa, cseq: int, filled: bool)
    requires Inv(o)
    ensures TxSdp(o, cseq, filled).oa.hist == o.hist + if filled then Taken(o.hist, Tx, cseq) else []
    ensures TxSdp(o, cseq, filled).ret == 0 <==> filled && Taken(o.hist, Tx, cseq) != []
  {
    PendingIs(o);
    assert o.hist + [] == o.hist;
  }

  lemma Appended(h: seq<Item>, x: seq<Item>, y: seq<Item>)
    ensures h + x + y == h + (x + y) && h + [] == h
  {
  }

  /** A check of the state resets the exchange exactly when it was completed since and the session refuses it. */
  lemma CheckedSettles(o: Oa, r: Oa, items: seq<Item>, refused: bool)
    requires Inv(o) && Inv(r) && r.saved == o.phase && r.hist == o.hist + items && |items| <= 1
    requires items != [] && items[0].Answer? ==> o.phase != Completed
    requires items == [] ==> r.phase == o.phase
    requires items != [] ==> items[0].Answer? || items[0].Offer?
    ensures StateChecked(r, refused).oa.hist == o.hist + Settled(items, refused)
    ensures StateChecked(r, refused).ret != 0 <==> refused && items != [] && items[0].Answer?
  {
    if items != [] {
      assert r.hist[|r.hist| - 1] == items[0];
    }
    Appended(o.hist, items, [Reset]);
  }

  /** A request other than ACK: a readable description is taken up as offer or answer, nothing else is, and the
      request is refused for a body it should not have, a description out of turn, or by the session. */
  lemma RequestInTakes(o: Oa, v: Verb, cseq: int, b: Body, refused: bool)
    requires Inv(o) && v != Ack
    ensures var items := if CarriesSdp(v) && b.filled && b.sdp.Sdp? && Readable(b) then Taken(o.hist, Rx, cseq) else [];
      var r := RequestIn(o, v, cseq, b, refused);
      && r.oa.hist == o.hist + Settled(items, refused)
      && (r.ret == 0 <==>
            && (CarriesSdp(v) && b.filled && b.sdp.Sdp? ==> items != [])
            && (CarriesSdp(v) && b.filled && b.sdp.NoSdp? ==> b.csta)
            && !(refused && items != [] && items[0].Answer?))
  {
    var t := Saved(o);
    RxTakes(t, cseq, b);
    RxInv(t, cseq, b);
    PendingIs(o);
    Appended(o.hist, [], []);
    var taking := CarriesSdp(v) && b.filled && b.sdp.Sdp?;
    var items := if taking && Readable(b) then Taken(o.hist, Rx, cseq) else [];
    CheckedSettles(o, if taking then RxSdp(t, cseq, b).oa else t, items, refused);
  }

  /** A reply: within the transaction of an offer received or an exchange completed a description is ignored, but for
      another report at a 200; otherwise a readable one is taken up. A final error of the offer's transaction resets
      what is not completed. */
  lemma ReplyInTakes(o: Oa, v: Verb, cseq: int, code: int, b: Body, refused: bool)
    requires Inv(o)
    ensures var r := ReplyIn(o, v, cseq, code, b, refused).oa;
      var described := v in {Invite, Update, Prack} && b.filled && (b.sdp.Sdp? || b.csta);
      if code >= 300 && cseq == o.cseq then r.hist == o.hist + if o.phase == Completed then [] else [Reset]
      else if !described then r == o
      else if o.phase in {Completed, OfferRecved} && cseq == o.cseq then
        r.hist == o.hist + if code == 200 && refused then [Reset] else []
      else r.hist == o.hist + Settled(if Readable(b) then Taken(o.hist, Rx, cseq) else [], refused)
  {
    var t := Saved(o);
    RxTakes(t, cseq, b);
    RxInv(t, cseq, b);
    PendingIs(o);
    Appended(o.hist, [], []);
    CheckedSettles(o, RxSdp(t, cseq, b).oa, if Readable(b) then Taken(o.hist, Rx, cseq) else [], refused);
  }

  /** A request about to be sent: its description, given or generated, is taken up; it is held back if none can be
      generated where one is needed, or if it is out of turn. */
  lemma RequestOutTakes(o: Oa, v: Verb, cseq: int, b: Body, gives: bool)
    requires Inv(o)
    ensures var generate := (b.sdp.Sdp? && !b.sdp.filled) || (b.sdp.NoSdp? && !b.csta && v in {Prack, Ack} && Pending(o.hist) == Some(Rx));
      var carries := generate || b.sdp.Sdp? || (b.csta && v != Info);
      var able := generate ==> gives && Pending(o.hist) != Some(Tx);
      var items := if carries && able && (b.filled || generate) then Taken(o.hist, Tx, cseq) else [];
      var r := RequestOut(o, v, cseq, b, gives);
      r.oa.hist == o.hist + items && (r.ret == 0 <==> able && (carries ==> items != []))
  {
    PendingIs(o);
    TxTakes(Saved(o), cseq, true);
    TxTakes(Saved(o), cseq, false);
    Appended(o.hist, [], []);
  }

  /** A reply about to be sent that is no final error of the offer's transaction: likewise. Descriptions repeated in
      the transaction of the exchange are not taken up again. */
  lemma ReplyOutTakes(o: Oa, v: Verb, cseq: int, code: int, b: Body, gives: bool, part: bool)
    requires Inv(o) && code < 300
    ensures var generate := Forces(o, v, code, b);
      var made := generate && gives && Pending(o.hist) != Some(Tx);
      var held := (generate && !made && !Tolerated(o, v, code)) || (made && b.sdp.NoSdp? && !part);
      var carries := Offers(o, v, cseq, code, b, made);
      var items := if !held && carries && (b.filled || made) then Taken(o.hist, Tx, cseq) else [];
      var r := ReplyOut(o, v, cseq, code, b, gives, part);
      r.oa.hist == o.hist + items && (r.ret == 0 <==> !held && (carries ==> items != []))
  {
    PendingIs(o);
    TxTakes(Saved(o), cseq, true);
    TxTakes(Saved(o), cseq, false);
    Appended(o.hist, [], []);
  }

  // ---- calls ----

  /** Sends a description in an INVITE or UPDATE and gets one back in a 2xx, or early in a 1xx: one exchange,
      completed. */
  lemma OutgoingCall(o: Oa, v: Verb, cseq: int, b: Body, code: int, c: Body)
    requires Inv(o) && o.phase in {Idle, Completed} && v in {Invite, Update} && code < 300
    requires b.filled && b.sdp.Sdp? && b.sdp.filled && c.filled && c.sdp.Sdp? && Readable(c)
    ensures var r := Run(o, [DoRequestOut(v, cseq, b, true), DoRequestSent(v, cseq, false), DoReplyIn(v, cseq, code, c, false)]);
      r.phase == Completed && r.cseq == cseq && r.hist == o.hist + [Offer(Tx, cseq), Answer(Rx)]
  {
    var a1, a2, a3 := DoRequestOut(v, cseq, b, true), DoRequestSent(v, cseq, false), DoReplyIn(v, cseq, code, c, false);
    ThreeSteps(o, a1, a2, a3);
    assert o.hist + [Offer(Tx, cseq)] + [Answer(Rx)] == o.hist + [Offer(Tx, cseq), Answer(Rx)];
  }

  /** Receives a description in an INVITE or UPDATE and answers it in a 2xx, or a 183, that the session fills. */
  lemma IncomingCall(o: Oa, v: Verb, cseq: int, b: Body, code: int)
    requires Inv(o) && o.phase in {Idle, Completed} && v in {Invite, Update}
    requires 200 <= code < 300 || (v == Invite && code == 183)
    requires b.filled && b.sdp.Sdp? && Readable(b)
    ensures var r := Run(o, [DoRequestIn(v, cseq, b, false), DoReplyOut(v, cseq, code, NONE, true, true), DoReplySent(v, cseq, code, false)]);
      r.phase == Completed && r.cseq == cseq && r.hist == o.hist + [Offer(Rx, cseq), Answer(Tx)]
  {
    var a1, a2, a3 := DoRequestIn(v, cseq, b, false), DoReplyOut(v, cseq, code, NONE, true, true), DoReplySent(v, cseq, code, false);
    ThreeSteps(o, a1, a2, a3);
    assert o.hist + [Offer(Rx, cseq)] + [Answer(Tx)] == o.hist + [Offer(Rx, cseq), Answer(Tx)];
  }

  /** Is invited without a description, offers in the 2xx and gets the answer in the ACK. */
  lemma AnswerInAck(o: Oa, cseq: int, code: int, c: Body)
    requires Inv(o) && o.phase == Idle && 200 <= code < 300 && c.filled && c.sdp.Sdp? && Readable(c)
    ensures var r := Run(o, [DoReplyOut(Invite, cseq, code, NONE, true, true), DoReplySent(Invite, cseq, code, false), DoRequestIn(Ack, cseq, c, false)]);
      r.phase == Completed && r.hist == o.hist + [Offer(Tx, cseq), Answer(Rx)]
  {
    var a1, a2, a3 := DoReplyOut(Invite, cseq, code, NONE, true, true), DoReplySent(Invite, cseq, code, false), DoRequestIn(Ack, cseq, c, false);
    ThreeSteps(o, a1, a2, a3);
    assert o.hist + [Offer(Tx, cseq)] + [Answer(Rx)] == o.hist + [Offer(Tx, cseq), Answer(Rx)];
  }

  /** Invites without a description, gets the offer in the 2xx and answers in the ACK. */
  lemma DelayedOffer(o: Oa, cseq: int, code: int, c: Body)
    requires Inv(o) && o.phase == Idle && 200 <= code < 300 && c.filled && c.sdp.Sdp? && Readable(c)
    ensures var r := Run(o, [DoReplyIn(Invite, cseq, code, c, false), DoRequestOut(Ack, cseq, NONE, true), DoRequestSent(Ack, cseq, false)]);
      r.phase == Completed && r.hist == o.hist + [Offer(Rx, cseq), Answer(Tx)]
  {
    var a1, a2, a3 := DoReplyIn(Invite, cseq, code, c, false), DoRequestOut(Ack, cseq, NONE, true), DoRequestSent(Ack, cseq, false);
    ThreeSteps(o, a1, a2, a3);
    assert o.hist + [Offer(Rx, cseq)] + [Answer(Tx)] == o.hist + [Offer(Rx, cseq), Answer(Tx)];
  }

  lemma ThreeSteps(o: Oa, a1: Action, a2: Action, a3: Action)
    ensures Run(o, [a1, a2, a3]) == Step(Step(Step(o, a1).oa, a2).oa, a3).oa
  {
    hide Step;
    var acts := [a1, a2, a3];
    assert acts[1..] == [a2, a3] && acts[1..][1..] == [a3] && [a3][1..] == [];
    assert Run(o, acts) == Run(Step(o, a1).oa, [a2, a3]) == Run(Step(Step(o, a1).oa, a2).oa, [a3]);
  }

  // ---- ends of the offer's transaction ----

  /** The action ends the transaction whose CSeq the current offer carries. */
  predicate Ends(o: Oa, a: Action) {
    match a
    case DoRequestIn(v, cseq, _, _) => v == Ack && cseq == o.cseq
    case DoReplyIn(_, cseq, code, _, _) => code >= 300 && cseq == o.cseq
    case DoRequestOut(_, _, _, _) => false
    case DoReplyOut(_, cseq, code, _, _, _) => code >= 300 && cseq == o.cseq
    case DoRequestSent(v, cseq, _) => v == Ack && cseq == o.cseq
    case DoReplySent(v, cseq, code, _) => code >= 200 && v != Cancel && v != Invite && cseq == o.cseq
    case DoNoAck(cseq) => cseq == o.cseq
    case DoSetState(_) => false
  }

  /** The end of the transaction itself brings a new body, or the session refuses a completion not yet reported. */
  predicate Discards(o: Oa, a: Action) {
    match a
    case DoRequestIn(_, _, b, _) => b.filled && b.sdp.Sdp? && Readable(b)
    case DoReplyOut(v, _, _, b, gives, _) =>
      if b.sdp.Sdp? && !b.sdp.filled then gives else b.filled && (b.sdp.Sdp? || (b.csta && v != Info))
    case DoRequestSent(_, _, refused) => refused && o.saved != Completed
    case DoReplySent(_, _, _, refused) => refused && o.saved != Completed
    case _ => false
  }

  /** Every handled end that returns success leaves no offer outstanding, and it keeps a completed exchange
      exactly when it neither brings a new body nor is refused by the session. A reply that fails on its way
      out changes only saved_state. */
  lemma TransactionEnds(o: Oa, a: Action)
    requires Ends(o, a)
    ensures Step(o, a).ret == 0 || !a.DoReplyOut? ==> Step(o, a).oa.phase in {Idle, Completed}
    ensures a.DoReplyOut? && Step(o, a).ret != 0 ==> Step(o, a).oa == Saved(o)
    ensures o.phase == Completed ==> (Step(o, a).oa.phase == Completed <==> !Discards(o, a))
  {
  }

  const PLAIN: Body := Body(true, Sdp(true, true, true), false)
  const NONE: Body := Body(false, NoSdp, false)

  /** An INVITE with an offer, answered in a 200, both under CSeq 1. */
  const ANSWERED: seq<Action> := [
    DoRequestIn(Invite, 1, PLAIN, false), DoReplyOut(Invite, 1, 200, NONE, true, true), DoReplySent(Invite, 1, 200, false)]

  lemma Answered()
    ensures Run(START, ANSWERED) == Oa(Completed, OfferRecved, 1, [Offer(Rx, 1), Answer(Tx)])
  {
    var o1 := Step(START, ANSWERED[0]).oa;
    var o2 := Step(o1, ANSWERED[1]).oa;
    assert ANSWERED[1..][1..] == ANSWERED[2..];
    assert ANSWERED[2..][1..] == [];
    assert Run(START, ANSWERED) == Run(o1, ANSWERED[1..]) == Run(o2, ANSWERED[2..]);
  }

  /** The same offer answered early, in a 183. */
  const EARLY: seq<Action> := [
    DoRequestIn(Invite, 1, PLAIN, false), DoReplyOut(Invite, 1, 183, NONE, true, true), DoReplySent(Invite, 1, 183, false)]

  lemma AnsweredEarly()
    ensures Run(START, EARLY) == Oa(Completed, OfferRecved, 1, [Offer(Rx, 1), Answer(Tx)])
  {
    var o1 := Step(START, EARLY[0]).oa;
    var o2 := Step(o1, EARLY[1]).oa;
    assert EARLY[1..][1..] == EARLY[2..];
    assert EARLY[2..][1..] == [];
    assert Run(START, EARLY) == Run(o1, EARLY[1..]) == Run(o2, EARLY[2..]);
  }

  /** A completed exchange is discarded by an ACK with a body of its own, and by a final error after an early answer
      if that error carries a body: the body counts as a new offer, which the same call clears. */
  lemma CompletedDiscarded()
    ensures Run(START, ANSWERED).phase == Completed && Run(START, EARLY).phase == Completed
    ensures var r := Step(Run(START, ANSWERED), DoRequestIn(Ack, 1, PLAIN, false)); r.ret == 0 && r.oa.phase == Idle
    ensures var r := Step(Run(START, EARLY), DoReplyOut(Invite, 1, 488, PLAIN, true, true)); r.ret == 0 && r.oa.phase == Idle
  {
    Answered();
    AnsweredEarly();
  }

  // ---- reporting to the session ----

  /** The next check of the state will report a completed exchange. */
  predicate Reports(o: Oa) {
    o.saved != o.phase && o.phase == Completed
  }

  lemma LastDiffers(hist: seq<Item>, x: Item, y: Item)
    requires x != y
    ensures hist + [x] != hist + [y] && hist != hist + [y]
    ensures hist + [x] + [Reset] != hist + [y]
  {
    assert (hist + [x])[|hist|] != (hist + [y])[|hist|];
    assert |hist + [x] + [Reset]| == |hist| + 2 && |hist + [y]| == |hist| + 1;
  }

  lemma TxReports(o: Oa, cseq: int, filled: bool)
    ensures var r := TxSdp(Saved(o), cseq, filled).oa; Reports(r) <==> r.hist == o.hist + [Answer(Tx)]
    ensures var r := TxSdp(Saved(o), cseq, filled).oa;
      !Reports(r) ==> !Reports(TransitionalCleared(r)) && TransitionalCleared(r).hist != o.hist + [Answer(Tx)]
  {
    LastDiffers(o.hist, Offer(Tx, cseq), Answer(Tx));
    LastDiffers(o.hist, Reset, Answer(Tx));
  }

  /** A handler that can complete an exchange leaves a report due, or makes it, exactly when it accepted an answer. */
  lemma AnswersAreReported(o: Oa, v: Verb, cseq: int, code: int, b: Body, gives: bool, part: bool)
    ensures var r := ReplyOut(o, v, cseq, code, b, gives, part).oa; Reports(r) <==> r.hist == o.hist + [Answer(Tx)]
    ensures var r := RequestOut(o, v, cseq, b, gives).oa; Reports(r) <==> r.hist == o.hist + [Answer(Tx)]
    ensures var r := RxSdp(Saved(o), cseq, b).oa; Reports(r) <==> r.hist == o.hist + [Answer(Rx)]
  {
    TxReports(o, cseq, true);
    TxReports(o, cseq, false);
    var r := RxSdp(Saved(o), cseq, b).oa;
    assert r.hist == o.hist || r.hist == o.hist + [Offer(Rx, cseq)] || r.hist == o.hist + [Answer(Rx)];
    LastDiffers(o.hist, Offer(Rx, cseq), Answer(Rx));
    LastDiffers(o.hist, Reset, Answer(Tx));
  }

  /** A later 183 or 2xx to an INVITE already answered is silent exactly when it carries a session description,
      or the session gives none: without a body, an available one goes out as a new offer. */
  lemma RepeatedAnswer(o: Oa, code: int, b: Body, gives: bool, part: bool)
    requires o.phase == Completed && !b.csta && (code == 183 || 200 <= code < 300)
    ensures var r := ReplyOut(o, Invite, o.cseq, code, b, gives, part).oa;
      r.hist == o.hist <==> (if b.sdp.NoSdp? then !(gives && part) else b.sdp.filled || !gives)
  {
    assert |o.hist + [Offer(Tx, o.cseq)]| == |o.hist| + 1;
  }

  // ---- the object ----

  /** AmOfferAnswer. The answers of the session and of the SDP parser are parameters. */
  class Exchange {
    var state: Phase
    var savedState: Phase
    var cseq: int
    ghost var hist: seq<Item>

    ghost function View(): Oa
      reads this
    {
      Oa(state, savedState, cseq, hist)
    }

    constructor ()
      ensures View() == START && Inv(View())
    {
      state, savedState, cseq, hist := Idle, Idle, 0, [];
    }

    method SetState(p: Phase)
      modifies this
      ensures View() == StateSet(old(View()), p)
    {
      state := p;
      hist := hist + [Forced(p, cseq)];
    }

    method Clear()
      modifies this
      ensures View() == Cleared(old(View()))
    {
      state := Idle;
      cseq := 0;
      hist := hist + [Reset];
    }

    method ClearTransitionalState()
      modifies this
      ensures View() == TransitionalCleared(old(View()))
    {
      if state != Completed {
        Clear();
      }
    }

    /** AmSipDialog::onSdpCompleted. */
    method OnSdpCompleted(refused: bool) returns (ret: int)
      modifies this
      ensures Res(View(), ret) == SdpCompleted(old(View()), refused)
    {
      ret := 0;
      if refused {
        Clear();
        ret := -1;
      }
    }

    method CheckStateChange(refused: bool) returns (ret: int)
      modifies this
      ensures Res(View(), ret) == StateChecked(old(View()), refused)
    {
      ret := 0;
      if savedState != state && state == Completed {
        ret := OnSdpCompleted(refused);
      }
    }

    method OnRxSdp(m: int, b: Body) returns (err: int)
      modifies this
      ensures Res(View(), err) == RxSdp(old(View()), m, b)
    {
      err := 0;
      if b.sdp.NoSdp? {
        if b.filled && !b.csta {
          err := 400;
        }
      } else if !b.sdp.parses {
        err := 400;
      } else if !b.sdp.media {
        err := 400;
      }
      if err == 0 {
        match state {
          case Idle | Completed =>
            state := OfferRecved;
            cseq := m;
            hist := hist + [Offer(Rx, m)];
          case OfferSent =>
            state := Completed;
            hist := hist + [Answer(Rx)];
          case OfferRecved =>
            err := 400;
        }
      }
    }

    method OnTxSdp(m: int, filled: bool) returns (ret: int)
      modifies this
      ensures Res(View(), ret) == TxSdp(old(View()), m, filled)
    {
      if !filled {
        return -1;
      }
      match state {
        case Idle | Completed =>
          state := OfferSent;
          cseq := m;
          hist := hist + [Offer(Tx, m)];
        case OfferRecved =>
          state := Completed;
          hist := hist + [Answer(Tx)];
        case OfferSent =>
          return -1;
      }
      return 0;
    }

    method OnRequestIn(v: Verb, m: int, b: Body, refused: bool) returns (ret: int)
      modifies this
      ensures Res(View(), ret) == RequestIn(old(View()), v, m, b, refused)
    {
      savedState := state;
      var err := 0;
      if (v == Invite || v == Update || v == Ack || v == Prack) && b.filled {
        if b.sdp.Sdp? {
          err := OnRxSdp(m, b);
        } else if !b.csta {
          err := 400;
        }
      }
      var changed := CheckStateChange(refused);
      if changed != 0 {
        err := 500;
      }
      if v == Ack && m == cseq {
        ClearTransitionalState();
      }
      ret := if err != 0 then -1 else 0;
    }

    method OnReplyIn(v: Verb, m: int, code: int, b: Body, refused: bool) returns (ret: int)
      modifies this
      ensures Res(View(), ret) == ReplyIn(old(View()), v, m, code, b, refused)
    {
      if code >= 300 && m == cseq {
        ClearTransitionalState();
        return 0;
      }
      if (v == Invite || v == Update || v == Prack) && b.filled {
        if b.sdp.Sdp? || b.csta {
          if (state == Completed || state == OfferRecved) && m == cseq {
            if code == 200 {
              var _ := OnSdpCompleted(refused);
            }
          } else {
            savedState := state;
            var _ := OnRxSdp(m, b);
            var _ := CheckStateChange(refused);
          }
        }
      }
      return 0;
    }

    method OnRequestOut(v: Verb, m: int, b: Body, gives: bool) returns (ret: int)
      modifies this
      ensures Res(View(), ret) == RequestOut(old(View()), v, m, b, gives)
    {
      var generate := b.sdp.Sdp? && !b.sdp.filled;
      var has := b.sdp.Sdp? && b.sdp.filled;
      if b.sdp.NoSdp? && !b.csta && (v == Prack || v == Ack) && state == OfferRecved {
        generate := true;
      }
      savedState := state;
      if generate {
        if state == OfferSent || !gives {
          return -1;
        }
        has := true;
      }
      ret := 0;
      if has || (b.csta && v != Info) {
        ret := OnTxSdp(m, b.filled || generate);
      }
    }

    /** Whether a reply needs a body it does not have. */
    method ForceSdp(v: Verb, code: int, b: Body) returns (generate: bool)
      ensures generate == Forces(View(), v, code, b)
    {
      generate := b.sdp.Sdp? && !b.sdp.filled;
      var has := b.sdp.Sdp? && b.sdp.filled;
      if !has && !generate && !b.csta {
        if v == Invite {
          if code == 183 || 200 <= code < 300 {
            generate := state == OfferRecved || state == Idle || state == Completed;
          }
        } else if v == Update {
          if 200 <= code < 300 {
            generate := state == OfferRecved;
          }
        }
      }
    }

    method OnReplyOut(v: Verb, m: int, code: int, b: Body, gives: bool, part: bool) returns (ret: int)
      modifies this
      ensures Res(View(), ret) == ReplyOut(old(View()), v, m, code, b, gives, part)
    {
      hide Forces;
      var generate := ForceSdp(v, code, b);
      var has := b.sdp.Sdp? && b.sdp.filled;
      if v == Invite && code < 300 {
        if has && (state == Completed || state == OfferSent) && m == cseq {
          has := false;
        }
      }
      savedState := state;
      var made := false;
      if generate {
        if state == OfferSent || !gives {
          if !((code == 183 && v == Invite) || (code == 200 && v == Invite && state == Completed)) {
            return -1;
          }
        } else {
          if b.sdp.NoSdp? && !part {
            return -1;
          }
          made, has := true, true;
        }
      }
      if has || (v != Info && b.csta) {
        var tx := OnTxSdp(m, b.filled || made);
        if tx != 0 {
          return -1;
        }
      }
      if code >= 300 && m == cseq {
        ClearTransitionalState();
      }
      return 0;
    }

    method OnRequestSent(v: Verb, m: int, refused: bool) returns (ret: int)
      modifies this
      ensures Res(View(), ret) == RequestSent(old(View()), v, m, refused)
    {
      ret := CheckStateChange(refused);
      if v == Ack && m == cseq {
        ClearTransitionalState();
      }
    }

    method OnReplySent(v: Verb, m: int, code: int, refused: bool) returns (ret: int)
      modifies this
      ensures Res(View(), ret) == ReplySent(old(View()), v, m, code, refused)
    {
      ret := CheckStateChange(refused);
      if code >= 200 && v != Cancel && m == cseq && v != Invite {
        ClearTransitionalState();
      }
    }

    method OnNoAck(m: int)
      modifies this
      ensures View() == NoAck(old(View()), m).oa
    {
      if m == cseq {
        ClearTransitionalState();
      }
    }
  }
}
