/** Relaying between the two legs of a back-to-back session, for one direction of requests: the leg
    that receives them (its server side) and the leg that sends the copies (its client side). A leg's
    event queue carries the requests of one direction and the replies of the other; here they are two
    FIFO channels, which only allows more interleavings. The other direction is the same machine. */
module B2BRelay {

  import opened Collections

  datatype Verb = Invite | Bye | Ack | Notify | Other

  /** An accepted request; uid tells two requests apart whatever their CSeq. */
  datatype Req = Req(verb: Verb, cseq: int, maxForwards: int, uid: nat)

  /** What a reply answers: a relayed copy of request uid, or something this leg sent on its own. */
  datatype Source = Copy(uid: nat) | Own

  /** Requests on their way to the peer; an ACK is forwarded but not stored. */
  datatype ReqEvent = Forward(req: Req) | ForwardAck(cseq: int)

  /** Replies on their way back. */
  datatype RepEvent = Reply(cseq: int, code: int, fwd: bool, src: Source)

  /** A reply put on the wire for request `to`, relayed from the peer or made by this leg. */
  datatype SentReply = SentReply(cseq: int, code: int, relayed: bool, src: Source, to: nat)

  /** Server side: rCseq is -1 before the first request; torn says that a failed reply has torn the legs down.
      `accepted`, `log` and `lost` are history; lost names the requests whose final reply could not be sent. */
  datatype Uas = Uas(
    rCseq: int, trans: map<int, Req>, recvd: map<int, Req>, torn: bool, closed: bool,
    accepted: map<int, Req>, log: seq<SentReply>, lost: set<nat>)

  /** Client side: est and estOther are the CSeqs of the establishing INVITE here and at the peer. `sent` is
      history, the source of the request sent under each CSeq. */
  datatype Uac = Uac(
    cseq: int, trans: map<int, Verb>, relayed: map<int, Req>, est: int, estOther: int, closed: bool,
    sent: map<int, Source>)

  /** ignoreLower is the configuration switch IgnoreNotifyLowerCSeq. */
  datatype State = State(up: Uas, down: Uac, reqs: seq<ReqEvent>, reps: seq<RepEvent>, next: nat, ignoreLower: bool)

  function Start(ignoreLower: bool): State {
    State(Uas(-1, map[], map[], false, false, map[], [], {}), Uac(0, map[], map[], 0, 0, false, map[]), [], [], 0, ignoreLower)
  }

  // ---- server side ----

  /** dlg->reply: fails without a transaction or when sending fails; a final reply ends the transaction. */
  function Replied(u: Uas, r: Req, code: int, relayed: bool, src: Source): Uas {
    var v := u.(log := u.log + [SentReply(r.cseq, code, relayed, src, r.uid)]);
    if code >= 200 then v.(trans := v.trans - {r.cseq}, recvd := v.recvd - {r.cseq}) else v
  }

  predicate CanReply(u: Uas, cseq: int, sendOk: bool) {
    cseq in u.trans && sendOk
  }

  /** onRxReqSanity: a CSeq not above the last accepted one is refused, but for a NOTIFY if so configured. */
  predicate Increasing(u: Uas, cseq: int) {
    u.rCseq < cseq
  }

  /** A request that passed the CSeq check, and the other checks if `accept`. */
  function Received(u: Uas, r: Req, accept: bool): Uas {
    var v := u.(rCseq := r.cseq);
    if accept then v.(trans := v.trans[r.cseq := r], accepted := v.accepted[r.cseq := r]) else v
  }

  /** recvd_req.insert does not overwrite. */
  function Stored(u: Uas, r: Req): Uas {
    if r.cseq in u.recvd then u else u.(recvd := u.recvd[r.cseq := r])
  }

  /** The CSeq check of onRxReqSanity. */
  predicate PassesCseq(u: Uas, r: Req, ignoreLower: bool) {
    Increasing(u, r.cseq) || (ignoreLower && r.verb == Notify)
  }

  /** onRxRequest and onSipRequest after the CSeq check. The request is stored once it was posted to
      the peer; if posting fails it is answered with 500. */
  function Accepted(u: Uas, r: Req, accept: bool, pass: bool, posted: bool, sendOk: bool): Uas {
    var v := Received(u, r, accept);
    if !accept || !pass then v
    else if posted then Stored(v, r)
    else if sendOk then Replied(v, r, 500, false, Own)
    else v
  }

  /** onB2BEvent(reply): returns the new state; a reply that cannot be sent tears the legs down. */
  function ReplyDelivered(u: Uas, e: RepEvent, sendOk: bool): Uas {
    if e.fwd && e.cseq in u.recvd then
      var r := u.recvd[e.cseq];
      if CanReply(u, r.cseq, sendOk) then Replied(u, r, e.code, true, e.src)
      else u.(torn := true, lost := if e.code >= 200 then u.lost + {r.uid} else u.lost)
    else u
  }

  /** One turn of termUasTrans: 481 for the transaction c, which ends even if that cannot be sent. */
  function Ended(u: Uas, c: int, ok: bool): Uas {
    if c !in u.trans then u
    else if ok then Replied(u, u.trans[c], 481, false, Own)
    else u.(trans := u.trans - {c}, lost := u.lost + {u.trans[c].uid})
  }

  /** termUasTrans, in the given order; `fails` are the CSeqs whose reply cannot be sent. */
  function Terminated(u: Uas, order: seq<int>, fails: set<int>): Uas {
    if order == [] then u
    else
      var c := order[|order| - 1];
      Ended(Terminated(u, order[..|order| - 1], fails), c, c !in fails)
  }

  // ---- client side ----

  predicate InvitePending(d: Uac) {
    exists c :: c in d.trans && d.trans[c] == Invite
  }

  function Sent(d: Uac, m: Verb, src: Source): Uac {
    d.(trans := d.trans[d.cseq := m], sent := d.sent[d.cseq := src], cseq := d.cseq + 1)
  }

  /** A failed relay is answered with the error code if it is a SIP one, else with 500. */
  function ErrorCode(err: int): (code: int)
    ensures 400 <= code < 700
  {
    if -700 < err < -399 then -err else 500
  }

  function Answer(r: Req, code: int): RepEvent {
    Reply(r.cseq, code, true, Copy(r.uid))
  }

  datatype Relayed = Relayed(down: Uac, reps: seq<RepEvent>)

  /** onB2BEvent(request) and relaySip(request): err is the result of dlg->sendRequest. */
  function Relay(d: Uac, r: Req, connected: bool, err: int): Relayed {
    if r.maxForwards == 0 then Relayed(d, [Answer(r, 483)])
    else if r.verb == Invite && InvitePending(d) then Relayed(d, [Answer(r, 491)])
    else if r.verb == Bye && !connected then Relayed(d, [Answer(r, 200)])
    else
      var e := d.(relayed := d.relayed[d.cseq := r]);
      if err < 0 then Relayed(e, [Answer(r, ErrorCode(err))]) else Relayed(Sent(e, r.verb, Copy(r.uid)), [])
  }

  /** relaySip(ACK): k is the entry found for the acknowledged request, if any. */
  function RelayAck(d: Uac, k: Option<int>, sendOk: bool): Uac {
    if k.Some? && k.value in d.trans && sendOk then d.(relayed := d.relayed - {k.value}, trans := d.trans - {k.value})
    else d
  }

  /** The CSeq under which a reply that is not relayed is reported to the peer. */
  function OwnCSeq(d: Uac, c: int): int {
    if d.est == c then d.estOther else if c in d.relayed then d.relayed[c].cseq else 0
  }

  /** onRxReply and onSipReply; `pass` is false for a reply dropped by the session. */
  function ReplyReceived(d: Uac, c: int, code: int, pass: bool): Relayed
    requires c in d.trans && c in d.sent
  {
    var r :=
      if !pass then Relayed(d, [])
      else if c in d.relayed && code != 100 then
        var o := d.relayed[c];
        var kept := code < 200 || (code < 300 && o.verb == Invite);
        Relayed(if kept then d else d.(relayed := d.relayed - {c}), [Reply(o.cseq, code, true, d.sent[c])])
      else Relayed(d, [Reply(OwnCSeq(d, c), code, false, d.sent[c])]);
    if code >= 200 && (d.trans[c] != Invite || code >= 300) then r.(down := r.down.(trans := r.down.trans - {c})) else r
  }

  /** The request sent under c is sent again, with credentials, and updateUACTransCSeq moves its entry. */
  function Resent(d: Uac, c: int): Uac
    requires c in d.trans && c in d.sent
  {
    Moved(Sent(d, d.trans[c], d.sent[c]), c, d.cseq)
  }

  /** updateUACTransCSeq */
  function Moved(d: Uac, c: int, n: int): Uac {
    if c == n then d
    else d.(relayed := if c in d.relayed then d.relayed[n := d.relayed[c]] - {c} else d.relayed,
            est := if d.est == c then n else d.est)
  }

  /** One turn of the loop in finalize: the stored request under k is answered with 481 and dropped. */
  function Dropped(f: Relayed, k: int): Relayed {
    if k !in f.down.relayed then f
    else Relayed(f.down.(relayed := f.down.relayed - {k}), f.reps + [Answer(f.down.relayed[k], 481)])
  }

  function Finalized(d: Uac, order: seq<int>): Relayed {
    if order == [] then Relayed(d, []) else Dropped(Finalized(d, order[..|order| - 1]), order[|order| - 1])
  }

  // ---- the machine ----

  /** Booleans and codes beside the message are oracles: checks, posting and sending outcomes. */
  datatype Action =
    | RxRequest(verb: Verb, cseq: int, maxForwards: int, accept: bool, pass: bool, posted: bool, sendOk: bool)
    | RxAck(ackCseq: int)
    | DeliverRequest(connected: bool, err: int)
    | DeliverAck(k: Option<int>, ackOk: bool)
    | RxReply(c: int, code: int, up: bool)
    | DeliverReply(ok: bool)
    | SendOwn(ownVerb: Verb)
    | AckOwn(ownCseq: int)
    | Resend(again: int)
    | ReplyOwn(to: int, ownCode: int)
    | Establish(est: int, estOther: int)
    | Finalize(entries: seq<int>)
    | TermUas(ended: seq<int>, fails: set<int>)

  /** A 2xx was sent for that INVITE. */
  ghost predicate Answered2xx(u: Uas, cseq: int) {
    exists i :: 0 <= i < |u.log| && u.log[i].cseq == cseq && 200 <= u.log[i].code < 300
  }

  /** A finalized leg takes no further part; the sequences of finalize and termUasTrans run through all entries. */
  ghost predicate Enabled(s: State, a: Action) {
    match a
    case RxRequest(v, cseq, _, _, _, _, _) => v != Ack && cseq >= 0 && !s.up.closed
    // the transaction layer passes an ACK up only after a 2xx was sent
    case RxAck(cseq) => Answered2xx(s.up, cseq) && !s.up.closed
    case DeliverRequest(_, _) => s.reqs != [] && s.reqs[0].Forward? && !s.down.closed
    case DeliverAck(k, _) =>
      && s.reqs != [] && s.reqs[0].ForwardAck? && !s.down.closed
      && (k.Some? ==> k.value in s.down.relayed && s.down.relayed[k.value].cseq == s.reqs[0].cseq)
    case RxReply(c, code, _) => c in s.down.trans && c in s.down.sent && 100 <= code < 700 && !s.down.closed
    case DeliverReply(_) => s.reps != [] && !s.up.closed
    case SendOwn(v) => v != Ack && !s.down.closed
    case AckOwn(c) => c in s.down.trans && c !in s.down.relayed && !s.down.closed
    case Resend(c) => c in s.down.trans && c in s.down.sent && !s.down.closed
    case ReplyOwn(cseq, code) => cseq in s.up.trans && 100 <= code < 700 && !s.up.closed
    case Establish(_, _) => !s.down.closed
    case Finalize(entries) => !s.down.closed && Finalized(s.down, entries).down.relayed == map[]
    case TermUas(ended, fails) => !s.up.closed && Terminated(s.up, ended, fails).trans == map[]
  }

  ghost function Next(s: State, a: Action): State
    requires Enabled(s, a)
  {
    match a
    case RxRequest(v, cseq, mf, accept, pass, posted, sendOk) =>
      var r := Req(v, cseq, mf, s.next);
      if !PassesCseq(s.up, r, s.ignoreLower) then s
      else
        s.(up := Accepted(s.up, r, accept, pass, posted, sendOk), next := s.next + 1,
           reqs := if accept && pass && posted then s.reqs + [Forward(r)] else s.reqs)
    case RxAck(cseq) => s.(reqs := s.reqs + [ForwardAck(cseq)])
    case DeliverRequest(connected, err) =>
      var r := Relay(s.down, s.reqs[0].req, connected, err);
      s.(down := r.down, reqs := s.reqs[1..], reps := s.reps + r.reps)
    case DeliverAck(k, ackOk) => s.(down := RelayAck(s.down, k, ackOk), reqs := s.reqs[1..])
    case RxReply(c, code, up) =>
      var r := ReplyReceived(s.down, c, code, up);
      s.(down := r.down, reps := s.reps + r.reps)
    case DeliverReply(ok) => s.(up := ReplyDelivered(s.up, s.reps[0], ok), reps := s.reps[1..])
    case SendOwn(v) => s.(down := Sent(s.down, v, Own))
    case AckOwn(c) => s.(down := s.down.(trans := s.down.trans - {c}))
    case Resend(c) => s.(down := Resent(s.down, c))
    case ReplyOwn(cseq, code) => s.(up := Replied(s.up, s.up.trans[cseq], code, false, Own))
    case Establish(est, other) => s.(down := s.down.(est := est, estOther := other))
    case Finalize(entries) =>
      var f := Finalized(s.down, entries);
      s.(down := f.down.(trans := map[], closed := true), reps := s.reps + f.reps)
    case TermUas(ended, fails) => s.(up := Terminated(s.up, ended, fails).(closed := true))
  }

  // ---- invariants ----

  /** Server side: recvd and trans hold accepted requests under their CSeq, a waiting request has its transaction
      unless its final reply was lost, and a request with a final reply in the log has no transaction and no second final reply. */
  ghost predicate UpInv(u: Uas, next: nat) {
    TransInv(u, next) && LogInv(u)
  }

  ghost predicate TransInv(u: Uas, next: nat) {
    && (forall c :: c in u.recvd ==> c in u.accepted && u.recvd[c] == u.accepted[c])
    && (forall c :: c in u.recvd ==> c in u.trans || u.recvd[c].uid in u.lost)
    && (forall c :: c in u.trans ==> c in u.accepted && u.trans[c] == u.accepted[c])
    && (forall c :: c in u.accepted ==> u.accepted[c].cseq == c && u.accepted[c].uid < next)
    && (forall c, d :: c in u.accepted && d in u.accepted && u.accepted[c].uid == u.accepted[d].uid ==> c == d)
  }

  ghost predicate LogInv(u: Uas) {
    && (forall i :: 0 <= i < |u.log| ==> u.log[i].cseq in u.accepted && u.log[i].to == u.accepted[u.log[i].cseq].uid)
    && (forall i :: 0 <= i < |u.log| && u.log[i].code >= 200 ==> u.log[i].cseq !in u.trans)
    && (forall i, j :: 0 <= i < j < |u.log| && u.log[i].code >= 200 && u.log[j].code >= 200 ==> u.log[i].cseq != u.log[j].cseq)
  }

  /** Client side: local CSeqs below the next one, stored copies at most at it. */
  ghost predicate DownInv(d: Uac, acc: map<int, Req>) {
    && (forall c :: c in d.sent ==> c < d.cseq)
    && (forall c :: c in d.trans ==> c in d.sent)
    && (forall c :: c in d.relayed ==> c <= d.cseq && IsAccepted(acc, d.relayed[c]))
  }

  ghost predicate IsAccepted(acc: map<int, Req>, r: Req) {
    r.cseq in acc && acc[r.cseq] == r
  }

  ghost predicate ChannelInv(s: State) {
    && (forall i :: 0 <= i < |s.reqs| && s.reqs[i].Forward? ==> IsAccepted(s.up.accepted, s.reqs[i].req))
    && (forall i :: 0 <= i < |s.reqs| && s.reqs[i].ForwardAck? ==> s.reqs[i].cseq in s.up.accepted && s.reqs[i].cseq !in s.up.trans)
    && (forall i :: 0 <= i < |s.reps| && s.reps[i].fwd ==> s.reps[i].cseq in s.up.accepted)
  }

  /** A final reply to the accepted request c, from its own copy, stands in reps[..n]. */
  ghost predicate Final(reps: seq<RepEvent>, n: nat, c: int, uid: nat)
    requires n <= |reps|
  {
    exists i :: 0 <= i < n && reps[i].fwd && reps[i].cseq == c && reps[i].code >= 200 && reps[i].src == Copy(uid)
  }

  /** The request under c still waits for a final reply, and none was lost. */
  ghost predicate Waits(u: Uas, c: int) {
    c in u.recvd && u.recvd[c].uid !in u.lost
  }

  /** Where a forwarded request that still waits for its final reply can be. */
  ghost predicate Accounted(s: State, r: Req) {
    || Forward(r) in s.reqs
    || (exists k :: k in s.down.relayed && s.down.relayed[k] == r)
    || Final(s.reps, |s.reps|, r.cseq, r.uid)
  }

  /** An entry of relayed_req under k answers to what was sent under k, or its request has its final reply or lost it. */
  ghost predicate Matched(s: State, k: int)
    requires k in s.down.relayed
  {
    var r := s.down.relayed[k];
    || (k in s.down.sent && s.down.sent[k] == Copy(r.uid))
    || r.cseq !in s.up.recvd
    || Final(s.reps, |s.reps|, r.cseq, r.uid)
    || r.uid in s.up.lost
  }

  /** A reply in the channel answers the request it will be sent for, or comes after that one's final reply, or
      that one's final reply was lost. */
  ghost predicate Faithful(s: State, i: nat)
    requires i < |s.reps|
  {
    var e := s.reps[i];
    e.fwd && e.cseq in s.up.recvd ==>
      || e.src == Copy(s.up.recvd[e.cseq].uid)
      || Final(s.reps, i, e.cseq, s.up.recvd[e.cseq].uid)
      || s.up.recvd[e.cseq].uid in s.up.lost
  }

  /** Relayed replies went to the request whose copy they answer, but for requests that lost their final reply. */
  ghost predicate LogFaithful(u: Uas) {
    forall i :: 0 <= i < |u.log| && u.log[i].relayed ==> u.log[i].src == Copy(u.log[i].to) || u.log[i].to in u.lost
  }

  ghost predicate Live(s: State) {
    && (forall c :: Waits(s.up, c) ==> Accounted(s, s.up.recvd[c]))
    && (forall k :: k in s.down.relayed ==> Matched(s, k))
    && (forall i :: 0 <= i < |s.reps| ==> Faithful(s, i))
    && LogFaithful(s.up)
  }

  ghost predicate Inv(s: State) {
    && UpInv(s.up, s.next) && DownInv(s.down, s.up.accepted) && ChannelInv(s)
    && Live(s)
  }

  // ---- small facts ----

  lemma FinalAppend(reps: seq<RepEvent>, x: seq<RepEvent>, n: nat, c: int, uid: nat)
    requires n <= |reps|
    ensures Final(reps + x, n, c, uid) <==> Final(reps, n, c, uid)
    ensures Final(reps, n, c, uid) ==> Final(reps + x, |reps + x|, c, uid)
  {
    if Final(reps, n, c, uid) {
      var i :| 0 <= i < n && reps[i].fwd && reps[i].cseq == c && reps[i].code >= 200 && reps[i].src == Copy(uid);
      assert (reps + x)[i] == reps[i];
    }
    if Final(reps + x, n, c, uid) {
      var i :| 0 <= i < n && (reps + x)[i].fwd && (reps + x)[i].cseq == c && (reps + x)[i].code >= 200 && (reps + x)[i].src == Copy(uid);
      assert (reps + x)[i] == reps[i];
    }
  }

  lemma FinalPop(reps: seq<RepEvent>, n: nat, c: int, uid: nat)
    requires 0 < n <= |reps| && Final(reps, n, c, uid)
    ensures (reps[0].fwd && reps[0].cseq == c && reps[0].code >= 200) || Final(reps[1..], n - 1, c, uid)
  {
    var i :| 0 <= i < n && reps[i].fwd && reps[i].cseq == c && reps[i].code >= 200 && reps[i].src == Copy(uid);
    if i > 0 { assert reps[1..][i - 1] == reps[i]; }
  }

  // ---- server-side actions ----

  lemma RepliedUp(u: Uas, r: Req, code: int, relayed: bool, src: Source, next: nat)
    requires UpInv(u, next) && r.cseq in u.trans && u.trans[r.cseq] == r
    ensures UpInv(Replied(u, r, code, relayed, src), next)
  {
    RepliedLog(u, r, code, relayed, src);
  }

  lemma RepliedLog(u: Uas, r: Req, code: int, relayed: bool, src: Source)
    requires LogInv(u) && r.cseq in u.trans && r.cseq in u.accepted && u.accepted[r.cseq] == r
    ensures LogInv(Replied(u, r, code, relayed, src))
  {
    var v := Replied(u, r, code, relayed, src);
    assert forall i :: 0 <= i < |u.log| ==> v.log[i] == u.log[i];
    assert v.log[|u.log|].cseq == r.cseq;
  }

  /** Fewer waiting requests, for whatever reason, break nothing. */
  lemma ShrunkLive(s: State, v: Uas)
    requires Inv(s) && UpInv(v, s.next) && v.accepted == s.up.accepted && LogFaithful(v) && s.up.lost <= v.lost
    requires forall c :: c in v.recvd ==> c in s.up.recvd && v.recvd[c] == s.up.recvd[c]
    ensures Live(s.(up := v))
  {
    var t := s.(up := v);
    forall k | k in t.down.relayed ensures Matched(t, k) { assert Matched(s, k); }
    forall i | 0 <= i < |t.reps| ensures Faithful(t, i) { assert Faithful(s, i); }
    forall c | Waits(v, c) ensures Accounted(t, v.recvd[c]) { assert Waits(s.up, c) && Accounted(s, s.up.recvd[c]); }
  }

  lemma ReplyOwnInv(s: State, cseq: int, code: int)
    requires Inv(s) && cseq in s.up.trans
    ensures Inv(s.(up := Replied(s.up, s.up.trans[cseq], code, false, Own)))
  {
    var v := Replied(s.up, s.up.trans[cseq], code, false, Own);
    RepliedUp(s.up, s.up.trans[cseq], code, false, Own, s.next);
    assert LogFaithful(v);
    ShrunkLive(s, v);
  }

  /** A transaction ended without a reply: its request counts as lost. */
  lemma EndedInv(s: State, c: int, ok: bool)
    requires Inv(s)
    ensures Inv(s.(up := Ended(s.up, c, ok)))
  {
    if c in s.up.trans {
      if ok {
        ReplyOwnInv(s, c, 481);
      } else {
        ShrunkLive(s, Ended(s.up, c, ok));
      }
    }
  }

  lemma {:induction false} TerminatedInv(s: State, order: seq<int>, fails: set<int>)
    requires Inv(s)
    ensures Inv(s.(up := Terminated(s.up, order, fails)))
    decreases |order|
  {
    hide Inv, Ended;
    if order != [] {
      var c := order[|order| - 1];
      TerminatedInv(s, order[..|order| - 1], fails);
      EndedInv(s.(up := Terminated(s.up, order[..|order| - 1], fails)), c, c !in fails);
    }
  }

  lemma ReceivedUp(u: Uas, r: Req, accept: bool, next: nat)
    requires UpInv(u, next) && (accept ==> r.cseq !in u.accepted) && r.uid == next
    ensures UpInv(Received(u, r, accept), next + 1)
  {
  }

  /** A new request with a fresh CSeq does not touch what is already under way. */
  lemma ReceivedInv(s: State, r: Req, accept: bool)
    requires Inv(s) && (accept ==> r.cseq !in s.up.accepted) && r.uid == s.next
    ensures Inv(s.(up := Received(s.up, r, accept), next := s.next + 1))
  {
    var u := Received(s.up, r, accept);
    var t := s.(up := u, next := s.next + 1);
    ReceivedUp(s.up, r, accept, s.next);
    assert forall c :: c in s.up.accepted ==> c in u.accepted && u.accepted[c] == s.up.accepted[c];
    forall k | k in t.down.relayed ensures Matched(t, k) { assert Matched(s, k); }
    forall i | 0 <= i < |t.reps| ensures Faithful(t, i) { assert Faithful(s, i); }
    forall c | Waits(u, c) ensures Accounted(t, u.recvd[c]) { assert Accounted(s, u.recvd[c]); }
  }

  lemma FreshCseq(s: State, r: Req)
    requires Inv(s) && r.cseq !in s.up.accepted
    ensures r.cseq !in s.up.trans && r.cseq !in s.up.recvd
    ensures forall i :: 0 <= i < |s.reps| && s.reps[i].fwd ==> s.reps[i].cseq != r.cseq
    ensures forall k :: k in s.down.relayed ==> s.down.relayed[k].cseq != r.cseq
  {
  }

  lemma StoredInv(s: State, r: Req)
    requires Inv(s) && r.cseq in s.up.trans && s.up.trans[r.cseq] == r && r.cseq !in s.up.recvd
    requires forall i :: 0 <= i < |s.reps| && s.reps[i].fwd ==> s.reps[i].cseq != r.cseq
    requires forall k :: k in s.down.relayed ==> s.down.relayed[k].cseq != r.cseq
    ensures Inv(s.(up := Stored(s.up, r), reqs := s.reqs + [Forward(r)]))
  {
    var u := Stored(s.up, r);
    var t := s.(up := u, reqs := s.reqs + [Forward(r)]);
    assert forall i :: 0 <= i < |s.reqs| ==> t.reqs[i] == s.reqs[i];
    assert t.reqs[|s.reqs|] == Forward(r);
    forall k | k in t.down.relayed ensures Matched(t, k) { assert Matched(s, k); }
    forall i | 0 <= i < |t.reps| ensures Faithful(t, i) { assert Faithful(s, i); }
    forall c | Waits(u, c) ensures Accounted(t, u.recvd[c]) {
      if c != r.cseq { assert Accounted(s, s.up.recvd[c]); }
      if Forward(u.recvd[c]) in s.reqs { assert Forward(u.recvd[c]) in t.reqs; }
    }
  }

  /** The CSeq of an accepted request was not accepted before. */
  ghost predicate Fresh(s: State, a: Action) {
    a.RxRequest? && PassesCseq(s.up, Req(a.verb, a.cseq, a.maxForwards, s.next), s.ignoreLower) && a.accept ==>
      a.cseq !in s.up.accepted
  }

  lemma RxRequestInv(s: State, a: Action)
    requires Inv(s) && a.RxRequest? && Enabled(s, a) && Fresh(s, a)
    ensures Inv(Next(s, a))
  {
    var r := Req(a.verb, a.cseq, a.maxForwards, s.next);
    if PassesCseq(s.up, r, s.ignoreLower) {
      hide Inv, UpInv, Live;
      ReceivedInv(s, r, a.accept);
      var t := s.(up := Received(s.up, r, a.accept), next := s.next + 1);
      if a.accept {
        FreshCseq(s, r);
        if a.pass {
          if a.posted { StoredInv(t, r); } else if a.sendOk { ReplyOwnInv(t, a.cseq, 500); }
        }
      }
    }
  }

  lemma RxAckInv(s: State, cseq: int)
    requires Inv(s) && Answered2xx(s.up, cseq)
    ensures Inv(s.(reqs := s.reqs + [ForwardAck(cseq)]))
  {
    var t := s.(reqs := s.reqs + [ForwardAck(cseq)]);
    assert forall i :: 0 <= i < |s.reqs| ==> t.reqs[i] == s.reqs[i];
    forall k | k in t.down.relayed ensures Matched(t, k) { assert Matched(s, k); }
    forall i | 0 <= i < |t.reps| ensures Faithful(t, i) { assert Faithful(s, i); }
    forall c | Waits(s.up, c) ensures Accounted(t, s.up.recvd[c]) {
      assert Accounted(s, s.up.recvd[c]);
      if Forward(s.up.recvd[c]) in s.reqs { assert Forward(s.up.recvd[c]) in t.reqs; }
    }
  }

  /** The head reply is taken from the channel: it is sent for the request it answers. */
  lemma DeliverReplyInv(s: State, ok: bool)
    requires Inv(s) && s.reps != []
    ensures Inv(s.(up := ReplyDelivered(s.up, s.reps[0], ok), reps := s.reps[1..]))
  {
    var v := ReplyDelivered(s.up, s.reps[0], ok);
    var t := s.(up := v, reps := s.reps[1..]);
    DeliveredUp(s, ok);
    assert forall i :: 0 <= i < |t.reps| ==> t.reps[i] == s.reps[i + 1];
    DeliveredLive(s, t);
  }

  lemma DeliveredUp(s: State, ok: bool)
    requires Inv(s) && s.reps != []
    ensures var v := ReplyDelivered(s.up, s.reps[0], ok); UpInv(v, s.next) && LogFaithful(v)
  {
    var e := s.reps[0];
    if e.fwd && e.cseq in s.up.recvd {
      var r := s.up.recvd[e.cseq];
      if CanReply(s.up, e.cseq, ok) {
        RepliedUp(s.up, r, e.code, true, e.src, s.next);
        assert Faithful(s, 0);
        assert LogFaithful(Replied(s.up, r, e.code, true, e.src));
      }
    }
  }

  lemma DeliveredLive(s: State, t: State)
    requires Inv(s) && s.reps != [] && UpInv(t.up, t.next) && LogFaithful(t.up)
    requires t == s.(up := t.up, reps := s.reps[1..]) && t.up.accepted == s.up.accepted && s.up.lost <= t.up.lost
    requires forall c :: c in t.up.recvd ==> c in s.up.recvd && t.up.recvd[c] == s.up.recvd[c]
    requires s.reps[0].fwd && s.reps[0].code >= 200 ==> !Waits(t.up, s.reps[0].cseq)
    ensures Live(t)
  {
    forall k | k in t.down.relayed ensures Matched(t, k) {
      assert Matched(s, k);
      var r := s.down.relayed[k];
      if Final(s.reps, |s.reps|, r.cseq, r.uid) { FinalPop(s.reps, |s.reps|, r.cseq, r.uid); }
    }
    forall i | 0 <= i < |t.reps| ensures Faithful(t, i) {
      assert Faithful(s, i + 1) && t.reps[i] == s.reps[i + 1];
      var c := t.reps[i].cseq;
      if c in t.up.recvd && Final(s.reps, i + 1, c, t.up.recvd[c].uid) { FinalPop(s.reps, i + 1, c, t.up.recvd[c].uid); }
    }
    forall c | Waits(t.up, c) ensures Accounted(t, t.up.recvd[c]) {
      var r := t.up.recvd[c];
      assert Accounted(s, s.up.recvd[c]);
      if Final(s.reps, |s.reps|, r.cseq, r.uid) { FinalPop(s.reps, |s.reps|, r.cseq, r.uid); }
    }
  }

  // ---- client-side actions ----

  /** Replies appended to the channel do not disturb those before them. */
  lemma AppendedFaithful(s: State, t: State, x: seq<RepEvent>)
    requires t.up == s.up && t.reps == s.reps + x && |x| <= 1
    requires forall i :: 0 <= i < |s.reps| ==> Faithful(s, i)
    requires x != [] ==> Faithful(t, |s.reps|)
    ensures forall i :: 0 <= i < |t.reps| ==> Faithful(t, i)
  {
    forall i | 0 <= i < |t.reps| ensures Faithful(t, i) {
      if i < |s.reps| {
        assert Faithful(s, i) && t.reps[i] == s.reps[i];
        var c := s.reps[i].cseq;
        if c in s.up.recvd { FinalAppend(s.reps, x, i, c, s.up.recvd[c].uid); }
      }
    }
  }

  lemma AnswerInv(s: State, r: Req, d: Uac, code: int)
    requires Inv(s) && s.reqs != [] && s.reqs[0] == Forward(r) && code >= 200
    requires d == s.down || d == s.down.(relayed := s.down.relayed[s.down.cseq := r])
    ensures Inv(s.(down := d, reqs := s.reqs[1..], reps := s.reps + [Answer(r, code)]))
  {
    var x := [Answer(r, code)];
    var t := s.(down := d, reqs := s.reqs[1..], reps := s.reps + x);
    var n := |s.reps|;
    assert forall i :: 0 <= i < |t.reqs| ==> t.reqs[i] == s.reqs[i + 1];
    assert forall i :: 0 <= i < n ==> t.reps[i] == s.reps[i];
    assert t.reps[n] == Answer(r, code);
    assert Final(t.reps, |t.reps|, r.cseq, r.uid);
    assert Faithful(t, n);
    AppendedFaithful(s, t, x);
    forall k | k in d.relayed ensures Matched(t, k) {
      if d.relayed[k] != r {
        assert Matched(s, k);
        FinalAppend(s.reps, x, n, d.relayed[k].cseq, d.relayed[k].uid);
      }
    }
    forall c | Waits(s.up, c) ensures Accounted(t, s.up.recvd[c]) {
      var q := s.up.recvd[c];
      if q != r { OthersAccounted(s, t, q, x, r); }
    }
  }

  /** A waiting request other than the one taken from the channel stays accounted for; an entry
      overwritten at the next local CSeq was never sent, so its request has its final reply. */
  lemma OthersAccounted(s: State, t: State, q: Req, x: seq<RepEvent>, r: Req)
    requires Inv(s) && Waits(s.up, q.cseq) && s.up.recvd[q.cseq] == q && q != r
    requires s.reqs != [] && s.reqs[0] == Forward(r) && t.reqs == s.reqs[1..] && t.reps == s.reps + x
    requires forall k :: k in s.down.relayed && k != s.down.cseq ==> k in t.down.relayed && t.down.relayed[k] == s.down.relayed[k]
    ensures Accounted(t, q)
  {
    assert Accounted(s, q);
    FinalAppend(s.reps, x, |s.reps|, q.cseq, q.uid);
    if Forward(q) in s.reqs {
      var i :| 0 <= i < |s.reqs| && s.reqs[i] == Forward(q);
      assert t.reqs[i - 1] == Forward(q);
    } else if exists k :: k in s.down.relayed && s.down.relayed[k] == q {
      var k :| k in s.down.relayed && s.down.relayed[k] == q;
      assert Matched(s, k);
      if k != s.down.cseq { assert t.down.relayed[k] == q; }
    }
  }

  lemma ForwardedInv(s: State, r: Req)
    requires Inv(s) && s.reqs != [] && s.reqs[0] == Forward(r)
    ensures Inv(s.(down := Sent(s.down.(relayed := s.down.relayed[s.down.cseq := r]), r.verb, Copy(r.uid)), reqs := s.reqs[1..]))
  {
    var d := Sent(s.down.(relayed := s.down.relayed[s.down.cseq := r]), r.verb, Copy(r.uid));
    var t := s.(down := d, reqs := s.reqs[1..]);
    assert forall i :: 0 <= i < |t.reqs| ==> t.reqs[i] == s.reqs[i + 1];
    forall i | 0 <= i < |t.reps| ensures Faithful(t, i) { assert Faithful(s, i); }
    forall k | k in d.relayed ensures Matched(t, k) {
      if k != s.down.cseq { assert Matched(s, k); }
    }
    forall c | Waits(s.up, c) ensures Accounted(t, s.up.recvd[c]) {
      var q := s.up.recvd[c];
      if q == r {
        assert d.relayed[s.down.cseq] == q;
      } else {
        assert s.reps + [] == s.reps;
        OthersAccounted(s, t, q, [], r);
      }
    }
  }

  lemma DeliverRequestInv(s: State, connected: bool, err: int)
    requires Inv(s) && Enabled(s, DeliverRequest(connected, err))
    ensures Inv(Next(s, DeliverRequest(connected, err)))
  {
    var r := s.reqs[0].req;
    var d := s.down.(relayed := s.down.relayed[s.down.cseq := r]);
    if r.maxForwards == 0 { AnswerInv(s, r, s.down, 483); }
    else if r.verb == Invite && InvitePending(s.down) { AnswerInv(s, r, s.down, 491); }
    else if r.verb == Bye && !connected { AnswerInv(s, r, s.down, 200); }
    else if err < 0 { AnswerInv(s, r, d, ErrorCode(err)); }
    else {
      ForwardedInv(s, r);
      assert s.reps + [] == s.reps;
    }
  }

  lemma DeliverAckInv(s: State, k: Option<int>, ok: bool)
    requires Inv(s) && Enabled(s, DeliverAck(k, ok))
    ensures Inv(Next(s, DeliverAck(k, ok)))
  {
    var t := Next(s, DeliverAck(k, ok));
    assert forall i :: 0 <= i < |t.reqs| ==> t.reqs[i] == s.reqs[i + 1];
    forall i | 0 <= i < |t.reps| ensures Faithful(t, i) { assert Faithful(s, i); }
    forall j | j in t.down.relayed ensures Matched(t, j) { assert Matched(s, j); }
    forall c | Waits(s.up, c) ensures Accounted(t, s.up.recvd[c]) {
      var q := s.up.recvd[c];
      assert Accounted(s, q);
      if Forward(q) in s.reqs {
        var i :| 0 <= i < |s.reqs| && s.reqs[i] == Forward(q);
        assert t.reqs[i - 1] == Forward(q);
      }
      if j :| j in s.down.relayed && s.down.relayed[j] == q {
        assert q.cseq != s.reqs[0].cseq;
        assert j in t.down.relayed;
      }
    }
  }

  /** A reply from the wire is passed on under the CSeq of the request whose copy it answers. */
  lemma RxReplyInv(s: State, c: int, code: int, up: bool)
    requires Inv(s) && Enabled(s, RxReply(c, code, up))
    ensures Inv(Next(s, RxReply(c, code, up)))
  {
    var res := ReplyReceived(s.down, c, code, up);
    var t := Next(s, RxReply(c, code, up));
    var x, n := res.reps, |s.reps|;
    assert forall i :: 0 <= i < n ==> t.reps[i] == s.reps[i];
    assert x != [] ==> t.reps[n] == x[0];
    if c in s.down.relayed {
      assert Matched(s, c);
      FinalAppend(s.reps, x, n, s.down.relayed[c].cseq, s.down.relayed[c].uid);
    }
    if x != [] { assert Faithful(t, n); }
    AppendedFaithful(s, t, x);
    forall k | k in t.down.relayed ensures Matched(t, k) {
      assert Matched(s, k);
      FinalAppend(s.reps, x, n, s.down.relayed[k].cseq, s.down.relayed[k].uid);
    }
    forall q | Waits(s.up, q) ensures Accounted(t, s.up.recvd[q]) {
      var r := s.up.recvd[q];
      assert Accounted(s, r);
      FinalAppend(s.reps, x, n, r.cseq, r.uid);
      if k :| k in s.down.relayed && s.down.relayed[k] == r {
        if k in t.down.relayed { assert t.down.relayed[k] == r; }
      }
    }
  }

  lemma SendOwnInv(s: State, v: Verb)
    requires Inv(s)
    ensures Inv(s.(down := Sent(s.down, v, Own)))
  {
    var t := s.(down := Sent(s.down, v, Own));
    forall i | 0 <= i < |t.reps| ensures Faithful(t, i) { assert Faithful(s, i); }
    forall k | k in t.down.relayed ensures Matched(t, k) { assert Matched(s, k); }
    forall c | Waits(s.up, c) ensures Accounted(t, s.up.recvd[c]) { assert Accounted(s, s.up.recvd[c]); }
  }

  lemma AckOwnInv(s: State, c: int)
    requires Inv(s)
    ensures Inv(s.(down := s.down.(trans := s.down.trans - {c})))
  {
    var t := s.(down := s.down.(trans := s.down.trans - {c}));
    forall i | 0 <= i < |t.reps| ensures Faithful(t, i) { assert Faithful(s, i); }
    forall k | k in t.down.relayed ensures Matched(t, k) { assert Matched(s, k); }
    forall q | Waits(s.up, q) ensures Accounted(t, s.up.recvd[q]) { assert Accounted(s, s.up.recvd[q]); }
  }

  lemma ResendInv(s: State, c: int)
    requires Inv(s) && c in s.down.trans && c in s.down.sent
    ensures Inv(s.(down := Resent(s.down, c)))
  {
    var t := s.(down := Resent(s.down, c));
    var n := s.down.cseq;
    forall i | 0 <= i < |t.reps| ensures Faithful(t, i) { assert Faithful(s, i); }
    forall k | k in t.down.relayed ensures Matched(t, k) {
      if c in s.down.relayed && k == n { assert Matched(s, c); } else { assert Matched(s, k); }
    }
    forall q | Waits(s.up, q) ensures Accounted(t, s.up.recvd[q]) {
      var r := s.up.recvd[q];
      assert Accounted(s, r);
      if k :| k in s.down.relayed && s.down.relayed[k] == r {
        assert Matched(s, k);
        if k == c { assert t.down.relayed[n] == r; } else if k != n { assert t.down.relayed[k] == r; }
      }
    }
  }

  /** One entry answered by finalize: its request, if it waits, has its final reply in the channel. */
  lemma DroppedInv(s: State, k: int)
    requires Inv(s) && k in s.down.relayed
    ensures Inv(s.(down := s.down.(relayed := s.down.relayed - {k}), reps := s.reps + [Answer(s.down.relayed[k], 481)]))
  {
    var r := s.down.relayed[k];
    var x, n := [Answer(r, 481)], |s.reps|;
    var t := s.(down := s.down.(relayed := s.down.relayed - {k}), reps := s.reps + x);
    assert forall i :: 0 <= i < n ==> t.reps[i] == s.reps[i];
    assert t.reps[n] == Answer(r, 481);
    assert Final(t.reps, |t.reps|, r.cseq, r.uid);
    assert Faithful(t, n);
    AppendedFaithful(s, t, x);
    forall j | j in t.down.relayed ensures Matched(t, j) {
      assert Matched(s, j);
      FinalAppend(s.reps, x, n, s.down.relayed[j].cseq, s.down.relayed[j].uid);
    }
    forall c | Waits(s.up, c) ensures Accounted(t, s.up.recvd[c]) {
      var q := s.up.recvd[c];
      assert Accounted(s, q);
      FinalAppend(s.reps, x, n, q.cseq, q.uid);
      if j :| j in s.down.relayed && s.down.relayed[j] == q {
        if j != k { assert t.down.relayed[j] == q; }
      }
    }
  }

  lemma {:induction false} FinalizedInv(s: State, order: seq<int>)
    requires Inv(s)
    ensures var f := Finalized(s.down, order); Inv(s.(down := f.down, reps := s.reps + f.reps))
    decreases |order|
  {
    hide Inv;
    if order == [] {
      assert s.reps + [] == s.reps;
    } else {
      var k := order[|order| - 1];
      FinalizedInv(s, order[..|order| - 1]);
      var f := Finalized(s.down, order[..|order| - 1]);
      if k in f.down.relayed {
        DroppedInv(s.(down := f.down, reps := s.reps + f.reps), k);
        assert s.reps + f.reps + [Answer(f.down.relayed[k], 481)] == s.reps + (f.reps + [Answer(f.down.relayed[k], 481)]);
      }
    }
  }

  /** What a leg does besides storing and sending does not enter the invariant. */
  lemma ClosedInv(s: State, up: bool, down: bool)
    requires Inv(s)
    ensures Inv(s.(up := s.up.(closed := up)))
    ensures Inv(s.(down := s.down.(trans := map[], closed := down)))
    ensures forall e, o :: Inv(s.(down := s.down.(est := e, estOther := o)))
  {
    ShrunkLive(s, s.up.(closed := up));
    SameDown(s, s.down.(trans := map[], closed := down));
    forall e, o ensures Inv(s.(down := s.down.(est := e, estOther := o))) {
      SameDown(s, s.down.(est := e, estOther := o));
    }
  }

  lemma SameDown(s: State, d: Uac)
    requires Inv(s) && d.cseq == s.down.cseq && d.relayed == s.down.relayed && d.sent == s.down.sent
    requires forall c :: c in d.trans ==> c in s.down.trans
    ensures Inv(s.(down := d))
  {
    var t := s.(down := d);
    forall i | 0 <= i < |t.reps| ensures Faithful(t, i) { assert Faithful(s, i); }
    forall k | k in t.down.relayed ensures Matched(t, k) { assert Matched(s, k); }
    forall c | Waits(s.up, c) ensures Accounted(t, s.up.recvd[c]) { assert Accounted(s, s.up.recvd[c]); }
  }

  lemma FinalizeInv(s: State, entries: seq<int>)
    requires Inv(s) && Enabled(s, Finalize(entries))
    ensures Inv(Next(s, Finalize(entries)))
  {
    hide Inv, Finalized;
    FinalizedInv(s, entries);
    var f := Finalized(s.down, entries);
    ClosedInv(s.(down := f.down, reps := s.reps + f.reps), true, true);
  }

  lemma TermUasInv(s: State, ended: seq<int>, fails: set<int>)
    requires Inv(s) && Enabled(s, TermUas(ended, fails))
    ensures Inv(Next(s, TermUas(ended, fails)))
  {
    hide Inv, Terminated;
    TerminatedInv(s, ended, fails);
    ClosedInv(s.(up := Terminated(s.up, ended, fails)), true, true);
  }

  lemma NextInv(s: State, a: Action)
    requires Inv(s) && Enabled(s, a) && Fresh(s, a)
    ensures Inv(Next(s, a))
  {
    hide Inv, UpInv, Live;
    match a
    case RxRequest(_, _, _, _, _, _, _) => RxRequestInv(s, a);
    case RxAck(cseq) => RxAckInv(s, cseq);
    case DeliverRequest(connected, err) => DeliverRequestInv(s, connected, err);
    case DeliverAck(k, ok) => DeliverAckInv(s, k, ok);
    case RxReply(c, code, up) => RxReplyInv(s, c, code, up);
    case DeliverReply(ok) => DeliverReplyInv(s, ok);
    case SendOwn(v) => SendOwnInv(s, v);
    case AckOwn(c) => AckOwnInv(s, c);
    case Resend(c) => ResendInv(s, c);
    case ReplyOwn(cseq, code) => ReplyOwnInv(s, cseq, code);
    case Establish(_, _) => ClosedInv(s, true, true);
    case Finalize(entries) => FinalizeInv(s, entries);
    case TermUas(ended, fails) => TermUasInv(s, ended, fails);
  }

  // ---- runs ----

  ghost predicate Legal(s: State, acts: seq<Action>)
    decreases |acts|
  {
    acts == [] || (Enabled(s, acts[0]) && Legal(Next(s, acts[0]), acts[1..]))
  }

  ghost function After(s: State, acts: seq<Action>): State
    requires Legal(s, acts)
    decreases |acts|
  {
    if acts == [] then s else After(Next(s, acts[0]), acts[1..])
  }

  /** No CSeq is accepted twice along the run. */
  ghost predicate FreshRun(s: State, acts: seq<Action>)
    requires Legal(s, acts)
    decreases |acts|
  {
    acts == [] || (Fresh(s, acts[0]) && FreshRun(Next(s, acts[0]), acts[1..]))
  }

  lemma {:induction false} RunInv(s: State, acts: seq<Action>)
    requires Inv(s) && Legal(s, acts) && FreshRun(s, acts)
    ensures Inv(After(s, acts))
    decreases |acts|
  {
    hide Inv;
    if acts != [] {
      NextInv(s, acts[0]);
      RunInv(Next(s, acts[0]), acts[1..]);
    }
  }

  /** No NOTIFY at or below the last accepted CSeq is let through along the run. */
  ghost predicate NoLowerNotify(s: State, acts: seq<Action>)
    requires Legal(s, acts)
    decreases |acts|
  {
    || acts == []
    || (&& (acts[0].RxRequest? && s.ignoreLower && acts[0].verb == Notify ==> Increasing(s.up, acts[0].cseq))
        && NoLowerNotify(Next(s, acts[0]), acts[1..]))
  }

  ghost predicate Past(u: Uas) {
    forall c :: c in u.accepted ==> c <= u.rCseq
  }

  lemma {:induction false} TerminatedPast(u: Uas, order: seq<int>, fails: set<int>)
    ensures Terminated(u, order, fails).accepted == u.accepted && Terminated(u, order, fails).rCseq == u.rCseq
    decreases |order|
  {
    if order != [] {
      TerminatedPast(u, order[..|order| - 1], fails);
    }
  }

  lemma StepPast(s: State, a: Action)
    requires Enabled(s, a) && Past(s.up)
    requires a.RxRequest? && s.ignoreLower && a.verb == Notify ==> Increasing(s.up, a.cseq)
    ensures Fresh(s, a) && Past(Next(s, a).up)
  {
    if a.TermUas? { TerminatedPast(s.up, a.ended, a.fails); }
  }

  /** Without such a NOTIFY, so in particular with the switch off, accepted CSeqs only grow and none comes twice. */
  lemma {:induction false} AscendingIsFresh(s: State, acts: seq<Action>)
    requires Legal(s, acts) && Past(s.up) && NoLowerNotify(s, acts)
    ensures FreshRun(s, acts)
    decreases |acts|
  {
    hide Past, Fresh;
    if acts != [] {
      StepPast(s, acts[0]);
      AscendingIsFresh(Next(s, acts[0]), acts[1..]);
    }
  }

  lemma {:induction false} SwitchedOff(s: State, acts: seq<Action>)
    requires Legal(s, acts) && !s.ignoreLower
    ensures NoLowerNotify(s, acts)
    decreases |acts|
  {
    if acts != [] {
      SwitchedOff(Next(s, acts[0]), acts[1..]);
    }
  }

  /** After any run in which no CSeq is accepted twice, request by request: one that waits is on its way to the
      peer, stored there, or has its final reply on the way back, unless a final reply for it could not be sent;
      and with the same exception a relayed reply was sent for the request whose copy it answers. */
  lemma RunAccounts(ignoreLower: bool, acts: seq<Action>)
    requires Legal(Start(ignoreLower), acts) && FreshRun(Start(ignoreLower), acts)
    ensures var s := After(Start(ignoreLower), acts);
      && (forall c :: c in s.up.recvd ==> Accounted(s, s.up.recvd[c]) || s.up.recvd[c].uid in s.up.lost)
      && (forall i :: 0 <= i < |s.up.log| && s.up.log[i].relayed ==>
            s.up.log[i].src == Copy(s.up.log[i].to) || s.up.log[i].to in s.up.lost)
  {
    RunInv(Start(ignoreLower), acts);
    var s := After(Start(ignoreLower), acts);
    forall c | c in s.up.recvd ensures Accounted(s, s.up.recvd[c]) || s.up.recvd[c].uid in s.up.lost {
      assert Waits(s.up, c) ==> Accounted(s, s.up.recvd[c]);
    }
  }

  /** After any such run no request was sent two final replies. */
  lemma RunOneFinal(ignoreLower: bool, acts: seq<Action>)
    requires Legal(Start(ignoreLower), acts) && FreshRun(Start(ignoreLower), acts)
    ensures var log := After(Start(ignoreLower), acts).up.log;
      forall i, j :: 0 <= i < j < |log| && log[i].code >= 200 && log[j].code >= 200 ==> log[i].to != log[j].to
  {
    RunInv(Start(ignoreLower), acts);
  }

  /** Once the client leg is finalized, a waiting request is still in the channel to it, or has its final reply in
      the channel back. */
  lemma FinalizeAnswers(s: State, entries: seq<int>, c: int)
    requires Inv(s) && Enabled(s, Finalize(entries)) && Waits(s.up, c)
    ensures var t := Next(s, Finalize(entries));
      Forward(s.up.recvd[c]) in t.reqs || Final(t.reps, |t.reps|, c, s.up.recvd[c].uid)
  {
    FinalizeInv(s, entries);
    var t := Next(s, Finalize(entries));
    assert Waits(t.up, c);
    assert Accounted(t, t.up.recvd[c]);
  }

  /** Once the server leg is terminated, no request waits: each got a final reply or is lost. */
  lemma TerminationAnswers(s: State, ended: seq<int>, fails: set<int>, c: int)
    requires Inv(s) && Enabled(s, TermUas(ended, fails))
    ensures !Waits(Next(s, TermUas(ended, fails)).up, c)
  {
    TermUasInv(s, ended, fails);
  }

  // ---- what each step does ----

  /** The requests a leg answers itself, and the code. */
  function LocalAnswer(d: Uac, r: Req, connected: bool, err: int): Option<int> {
    if r.maxForwards == 0 then Some(483)
    else if r.verb == Invite && (exists c | c in d.trans :: d.trans[c] == Invite) then Some(491)
    else if r.verb == Bye && !connected then Some(200)
    else if err < 0 then Some(if -700 < err <= -400 then -err else 500)
    else None
  }

  /** A request is answered by the leg itself exactly when it has no hops left, or is an INVITE while an INVITE is open,
      or a BYE for a dialog that is not connected, or cannot be sent. Any other is sent on: stored under the next CSeq,
      which becomes a transaction of its verb. */
  lemma RelayDoes(d: Uac, r: Req, connected: bool, err: int)
    ensures var x, local := Relay(d, r, connected, err), LocalAnswer(d, r, connected, err);
      && (local.Some? <==>
            r.maxForwards == 0 || (r.verb == Invite && InvitePending(d)) || (r.verb == Bye && !connected) || err < 0)
      && (local.Some? ==> x.reps == [Answer(r, local.value)] && x.down.trans == d.trans && x.down.sent == d.sent)
      && (local.None? ==>
            && x.reps == [] && x.down.cseq == d.cseq + 1
            && x.down.relayed == d.relayed[d.cseq := r]
            && x.down.sent == d.sent[d.cseq := Copy(r.uid)] && x.down.trans == d.trans[d.cseq := r.verb])
  {
  }

  /** As a step: the request leaves the channel, and there is one reply more exactly if it is answered locally. */
  lemma DeliverRequestDoes(s: State, connected: bool, err: int)
    requires Enabled(s, DeliverRequest(connected, err))
    ensures var t, r := Next(s, DeliverRequest(connected, err)), s.reqs[0].req;
      var local := LocalAnswer(s.down, r, connected, err);
      && t.reqs == s.reqs[1..] && t.up == s.up
      && t.reps == s.reps + (if local.Some? then [Answer(r, local.value)] else [])
      && (local.None? <==> t.down.cseq == s.down.cseq + 1)
      && (local.None? ==> s.down.cseq in t.down.sent && t.down.sent[s.down.cseq] == Copy(r.uid))
      && (local.None? ==> s.down.cseq in t.down.relayed && t.down.relayed[s.down.cseq] == r)
  {
    RelayDoes(s.down, s.reqs[0].req, connected, err);
  }

  /** A request with a fresh CSeq that passes all checks waits, with its transaction open, and is on its way to the
      peer; if it cannot be posted it is answered with 500, and if it is refused nothing is stored. */
  lemma RxRequestDoes(s: State, a: Action)
    requires Inv(s) && a.RxRequest? && Enabled(s, a) && Fresh(s, a)
    ensures var t, r := Next(s, a), Req(a.verb, a.cseq, a.maxForwards, s.next);
      if !(Increasing(s.up, a.cseq) || (s.ignoreLower && a.verb == Notify)) then t == s
      else
        && t.up.rCseq == a.cseq && t.down == s.down && t.reps == s.reps
        && (if a.accept && a.pass && a.posted then
              t.reqs == s.reqs + [Forward(r)] && t.up.log == s.up.log
              && t.up.recvd == s.up.recvd[a.cseq := r] && t.up.trans == s.up.trans[a.cseq := r]
            else
              && t.reqs == s.reqs && t.up.recvd == s.up.recvd
              && t.up.log == s.up.log +
                   if a.accept && a.pass && a.sendOk then [SentReply(a.cseq, 500, false, Own, s.next)] else [])
  {
    var r := Req(a.verb, a.cseq, a.maxForwards, s.next);
    if PassesCseq(s.up, r, s.ignoreLower) && a.accept {
      FreshCseq(s, r);
      assert s.up.recvd - {a.cseq} == s.up.recvd;
    }
  }

  /** The reply at the head of the channel goes out for the request that waits under its CSeq; a final one ends that
      request and its transaction. If it cannot be sent nothing goes out, and a final one is lost. */
  lemma DeliverReplyDoes(s: State, ok: bool)
    requires Inv(s) && Enabled(s, DeliverReply(ok))
    ensures var t, e := Next(s, DeliverReply(ok)), s.reps[0];
      && t.reps == s.reps[1..] && t.reqs == s.reqs && t.down == s.down
      && (!e.fwd || e.cseq !in s.up.recvd ==> t.up == s.up)
      && (e.fwd && e.cseq in s.up.recvd ==>
            var uid := s.up.recvd[e.cseq].uid;
            if ok && e.cseq in s.up.trans then
              && t.up.log == s.up.log + [SentReply(e.cseq, e.code, true, e.src, uid)]
              && t.up.recvd == (if e.code >= 200 then s.up.recvd - {e.cseq} else s.up.recvd)
              && t.up.trans == (if e.code >= 200 then s.up.trans - {e.cseq} else s.up.trans)
              && t.up.lost == s.up.lost
            else
              && t.up.log == s.up.log && t.up.recvd == s.up.recvd && t.up.torn
              && t.up.lost == s.up.lost + (if e.code >= 200 then {uid} else {}))
  {
  }

  /** A reply from the wire to a relayed request, other than 100, is passed on under the request's own CSeq. The entry
      is dropped at a final reply, but kept at a 2xx to an INVITE until its ACK. */
  lemma RxReplyDoes(s: State, c: int, code: int)
    requires Enabled(s, RxReply(c, code, true)) && c in s.down.relayed && code != 100
    ensures var t, r := Next(s, RxReply(c, code, true)), s.down.relayed[c];
      && t.reps == s.reps + [Reply(r.cseq, code, true, s.down.sent[c])] && t.up == s.up && t.reqs == s.reqs
      && t.down.relayed == (if code >= 300 || (code >= 200 && r.verb != Invite) then s.down.relayed - {c} else s.down.relayed)
      && t.down.trans == (if code >= 300 || (code >= 200 && s.down.trans[c] != Invite) then s.down.trans - {c} else s.down.trans)
  {
  }

  /** A reply to a request of the leg's own is reported, not passed on, and under the CSeq at the peer if it is the
      establishing INVITE. A final one ends the transaction, but for a 2xx to an INVITE. */
  lemma OwnReplyDoes(s: State, c: int, code: int)
    requires Enabled(s, RxReply(c, code, true)) && c !in s.down.relayed
    ensures var t := Next(s, RxReply(c, code, true));
      && t.reps == s.reps + [Reply(if s.down.est == c then s.down.estOther else 0, code, false, s.down.sent[c])]
      && t.down.relayed == s.down.relayed && t.up == s.up && t.reqs == s.reqs
      && t.down.trans == (if code >= 300 || (code >= 200 && s.down.trans[c] != Invite) then s.down.trans - {c} else s.down.trans)
  {
  }

  /** An ACK that can be sent drops the entry and the transaction of the INVITE it belongs to. */
  lemma DeliverAckDoes(s: State, k: int)
    requires Enabled(s, DeliverAck(Some(k), true)) && k in s.down.trans
    ensures var t := Next(s, DeliverAck(Some(k), true));
      t.reqs == s.reqs[1..] && t.down.relayed == s.down.relayed - {k} && t.down.trans == s.down.trans - {k} && t.up == s.up
  {
  }

  /** Every transaction open before gets its 481, but for those whose reply cannot be sent. */
  lemma {:induction false} TerminatedDoes(u: Uas, order: seq<int>, fails: set<int>, c: int)
    requires c in u.trans && c in order && c !in fails && (forall d :: d in u.trans ==> u.trans[d].cseq == d)
    ensures SentReply(c, 481, false, Own, u.trans[c].uid) in Terminated(u, order, fails).log
    decreases |order|
  {
    var n := |order| - 1;
    var v := Terminated(u, order[..n], fails);
    TerminatedShrinks(u, order[..n], fails);
    assert order == order[..n] + [order[n]];
    if c in order[..n] {
      TerminatedDoes(u, order[..n], fails, c);
    } else {
      StillOpen(u, order[..n], fails, c);
      var w := Ended(v, c, true);
      assert w.log[|v.log|] == SentReply(c, 481, false, Own, u.trans[c].uid);
    }
  }

  lemma {:induction false} TerminatedShrinks(u: Uas, order: seq<int>, fails: set<int>)
    requires forall d :: d in u.trans ==> u.trans[d].cseq == d
    ensures var v := Terminated(u, order, fails);
      u.log <= v.log && forall d :: d in v.trans ==> d in u.trans && v.trans[d] == u.trans[d]
    decreases |order|
  {
    if order != [] { TerminatedShrinks(u, order[..|order| - 1], fails); }
  }

  lemma {:induction false} StillOpen(u: Uas, order: seq<int>, fails: set<int>, c: int)
    requires c in u.trans && c !in order && (forall d :: d in u.trans ==> u.trans[d].cseq == d)
    ensures c in Terminated(u, order, fails).trans && Terminated(u, order, fails).trans[c] == u.trans[c]
    decreases |order|
  {
    if order != [] {
      StillOpen(u, order[..|order| - 1], fails, c);
      TerminatedShrinks(u, order[..|order| - 1], fails);
    }
  }

  /** A request sent again with credentials goes on standing for the one it was sent for: the reply to the new copy is
      passed on as the reply to the old one would have been. */
  lemma ResendDoes(s: State, c: int, code: int)
    requires Enabled(s, Resend(c)) && c in s.down.relayed && c != s.down.cseq && 100 < code < 700
    ensures var t, n := Next(s, Resend(c)), s.down.cseq;
      && t.down.trans == s.down.trans[n := s.down.trans[c]] && t.down.sent == s.down.sent[n := s.down.sent[c]]
      && t.down.relayed == s.down.relayed[n := s.down.relayed[c]] - {c} && t.down.cseq == n + 1
      && t.down.est == (if s.down.est == c then n else s.down.est)
      && t.up == s.up && t.reqs == s.reqs && t.reps == s.reps
      && Enabled(t, RxReply(n, code, true)) && Enabled(s, RxReply(c, code, true))
      && Next(t, RxReply(n, code, true)).reps == Next(s, RxReply(c, code, true)).reps
  {
    var t := Next(s, Resend(c));
    RxReplyDoes(t, s.down.cseq, code);
    RxReplyDoes(s, c, code);
  }

  /** A leg that ends answers every request it has stored with 481. */
  lemma {:induction false} FinalizedDoes(d: Uac, order: seq<int>, k: int)
    requires k in d.relayed
    ensures var f := Finalized(d, order);
      if k in order then k !in f.down.relayed && Answer(d.relayed[k], 481) in f.reps
      else k in f.down.relayed && f.down.relayed[k] == d.relayed[k]
    decreases |order|
  {
    if order != [] {
      var n := |order| - 1;
      var f := Finalized(d, order[..n]);
      assert order == order[..n] + [order[n]];
      FinalizedDoes(d, order[..n], k);
      if order[n] == k && k in f.down.relayed {
        assert Dropped(f, k).reps[|f.reps|] == Answer(d.relayed[k], 481);
      }
    }
  }

  /** End to end, from any state with empty channels: a request that is let through reaches the far side under a CSeq of
      its own, and the reply to that copy is sent for the request, once. */
  lemma RelayedEndToEnd(s: State, v: Verb, cseq: int, hops: int, code: int) returns (acts: seq<Action>)
    requires Inv(s) && s.reqs == [] && s.reps == [] && !s.up.closed && !s.down.closed
    requires v != Ack && cseq >= 0 && cseq > s.up.rCseq && cseq !in s.up.accepted && hops != 0
    requires 100 < code < 700 && (v == Invite ==> !InvitePending(s.down))
    ensures acts == [RxRequest(v, cseq, hops, true, true, true, true), DeliverRequest(true, 0), RxReply(s.down.cseq, code, true), DeliverReply(true)]
    ensures Legal(s, acts)
    ensures var t := After(s, acts);
      && t.down.sent == s.down.sent[s.down.cseq := Copy(s.next)]
      && t.up.log == s.up.log + [SentReply(cseq, code, true, Copy(s.next), s.next)]
      && (code >= 200 <==> cseq !in t.up.recvd) && t.reqs == [] && t.reps == []
  {
    hide Inv, Live;
    var r := Req(v, cseq, hops, s.next);
    var a1, a2, a3, a4 := RxRequest(v, cseq, hops, true, true, true, true), DeliverRequest(true, 0), RxReply(s.down.cseq, code, true), DeliverReply(true);
    var s1 := Next(s, a1);
    RxRequestDoes(s, a1);
    NextInv(s, a1);
    var s2 := Next(s1, a2);
    DeliverRequestDoes(s1, true, 0);
    RelayDoes(s1.down, r, true, 0);
    NextInv(s1, a2);
    var s3 := Next(s2, a3);
    RxReplyDoes(s2, s.down.cseq, code);
    NextInv(s2, a3);
    var s4 := Next(s3, a4);
    DeliverReplyDoes(s3, true);
    acts := [a1, a2, a3, a4];
    hide Next, Enabled;
    FourSteps(s, acts, s1, s2, s3, s4);
  }

  lemma FourSteps(s: State, acts: seq<Action>, s1: State, s2: State, s3: State, s4: State)
    requires |acts| == 4
    requires Enabled(s, acts[0]) && s1 == Next(s, acts[0])
    requires Enabled(s1, acts[1]) && s2 == Next(s1, acts[1])
    requires Enabled(s2, acts[2]) && s3 == Next(s2, acts[2])
    requires Enabled(s3, acts[3]) && s4 == Next(s3, acts[3])
    ensures Legal(s, acts) && After(s, acts) == s4
  {
    hide Enabled, Next;
    assert acts[3..][1..] == [];
    assert Legal(s3, acts[3..]) && After(s3, acts[3..]) == s4;
    assert acts[2..][1..] == acts[3..];
    assert Legal(s2, acts[2..]) && After(s2, acts[2..]) == s4;
    assert acts[1..][1..] == acts[2..];
    assert Legal(s1, acts[1..]) && After(s1, acts[1..]) == s4;
  }

  // ---- where the guarantees end ----

  lemma Then(s: State, acts: seq<Action>, a: Action)
    requires Legal(s, acts) && Enabled(After(s, acts), a)
    ensures Legal(s, acts + [a]) && After(s, acts + [a]) == Next(After(s, acts), a)
    decreases |acts|
  {
    if acts == [] {
      assert (acts + [a])[1..] == [];
    } else {
      assert (acts + [a])[1..] == acts[1..] + [a];
      Then(Next(s, acts[0]), acts[1..], a);
    }
  }

  /** A final reply that cannot be sent is gone: its request waits with nothing left to answer it. */
  lemma LostReply() returns (acts: seq<Action>)
    ensures Legal(Start(false), acts)
    ensures var s := After(Start(false), acts);
      s.up.torn && 1 in s.up.recvd && s.up.recvd[1].uid in s.up.lost && !Accounted(s, s.up.recvd[1])
  {
    var s := Start(false);
    var r := Req(Other, 1, 70, 0);
    var a1, a2, a3, a4 := RxRequest(Other, 1, 70, true, true, true, true), DeliverRequest(true, 0), RxReply(0, 200, true), DeliverReply(false);
    Then(s, [], a1);
    Then(s, [a1], a2);
    assert After(s, [a1] + [a2]).down.relayed == map[0 := r];
    Then(s, [a1] + [a2], a3);
    Then(s, [a1] + [a2] + [a3], a4);
    acts := [a1] + [a2] + [a3] + [a4];
  }

  /** A relay that fails leaves its request stored under the next CSeq. If the error reply is lost too, that CSeq
      goes to the next request of the leg itself, say the BYE of the tear-down, and the reply to that one is sent
      as the answer to the original request. */
  lemma StaleEntryMisrelays() returns (acts: seq<Action>)
    ensures Legal(Start(false), acts)
    ensures After(Start(false), acts).up.log == [SentReply(1, 200, true, Own, 0)]
  {
    var s := Start(false);
    var r := Req(Other, 1, 70, 0);
    var a1, a2, a3 := RxRequest(Other, 1, 70, true, true, true, true), DeliverRequest(true, -1), DeliverReply(false);
    var a4, a5, a6 := SendOwn(Bye), RxReply(0, 200, true), DeliverReply(true);
    Then(s, [], a1);
    Then(s, [a1], a2);
    Then(s, [a1] + [a2], a3);
    var t := After(s, [a1] + [a2] + [a3]);
    assert t.down.relayed == map[0 := r] && t.down.cseq == 0 && t.up.recvd == map[1 := r] && t.reps == [] && t.up.log == [];
    Then(s, [a1] + [a2] + [a3], a4);
    Then(s, [a1] + [a2] + [a3] + [a4], a5);
    Then(s, [a1] + [a2] + [a3] + [a4] + [a5], a6);
    acts := [a1] + [a2] + [a3] + [a4] + [a5] + [a6];
  }

  /** With IgnoreNotifyLowerCSeq on, two NOTIFYs may share a CSeq, and the reply to the second is sent
      for the first. */
  lemma LowerNotifyMisrelays() returns (acts: seq<Action>)
    ensures Legal(Start(true), acts)
    ensures var s := After(Start(true), acts); s.up.lost == {} && !LogFaithful(s.up)
  {
    var s := Start(true);
    var a1, a2, a3, a4 := RxRequest(Notify, 1, 70, true, true, true, true), DeliverRequest(true, 0), RxReply(1, 200, true), DeliverReply(true);
    var r0, r1 := Req(Notify, 1, 70, 0), Req(Notify, 1, 70, 1);
    Then(s, [], a1);
    Then(s, [a1], a1);
    assert After(s, [a1] + [a1]).reqs == [Forward(r0), Forward(r1)];
    Then(s, [a1] + [a1], a2);
    Then(s, [a1] + [a1] + [a2], a2);
    var t := After(s, [a1] + [a1] + [a2] + [a2]);
    assert t.down.relayed == map[0 := r0, 1 := r1] && t.down.sent[1] == Copy(1) && t.up.recvd == map[1 := r0];
    Then(s, [a1] + [a1] + [a2] + [a2], a3);
    Then(s, [a1] + [a1] + [a2] + [a2] + [a3], a4);
    acts := [a1] + [a1] + [a2] + [a2] + [a3] + [a4];
    assert After(s, acts).up.log[0] == SentReply(1, 200, true, Copy(1), 0);
  }

  // ---- the session object ----

  /** One leg: its dialog and session state, server and client side. Its methods return the events they
      post to the peer. */
  class Session {
    var rCseq: int
    var uas: map<int, Req>
    var recvd: map<int, Req>
    var torn: bool
    var cseq: int
    var uac: map<int, Verb>
    var relayed: map<int, Req>
    var est: int
    var estOther: int
    var closed: bool
    ghost var accepted: map<int, Req>
    ghost var log: seq<SentReply>
    ghost var lost: set<nat>
    ghost var sent: map<int, Source>

    ghost function Up(): Uas
      reads this
    {
      Uas(rCseq, uas, recvd, torn, closed, accepted, log, lost)
    }

    ghost function Down(): Uac
      reads this
    {
      Uac(cseq, uac, relayed, est, estOther, closed, sent)
    }

    constructor ()
      ensures Up() == Start(false).up && Down() == Start(false).down
    {
      rCseq, uas, recvd, torn, cseq, uac, relayed := -1, map[], map[], false, 0, map[], map[];
      est, estOther, closed := 0, 0, false;
      accepted, log, lost, sent := map[], [], {}, map[];
    }

    /** dlg->reply with its callbacks onReplyTxed and onReplySent. */
    method SendReply(r: Req, code: int, isRelayed: bool, src: Source, sendOk: bool) returns (ok: bool)
      modifies this
      ensures ok == CanReply(old(Up()), r.cseq, sendOk) && Down() == old(Down())
      ensures Up() == if ok then Replied(old(Up()), r, code, isRelayed, src) else old(Up())
    {
      if r.cseq !in uas || !sendOk {
        return false;
      }
      log := log + [SentReply(r.cseq, code, isRelayed, src, r.uid)];
      if code >= 200 {
        recvd := recvd - {r.cseq};
        uas := uas - {r.cseq};
      }
      return true;
    }

    method OnRxRequest(r: Req, ignoreLower: bool, accept: bool, pass: bool, posted: bool, sendOk: bool) returns (out: seq<ReqEvent>)
      requires r.verb != Ack
      modifies this
      ensures Down() == old(Down())
      ensures !PassesCseq(old(Up()), r, ignoreLower) ==> Up() == old(Up()) && out == []
      ensures PassesCseq(old(Up()), r, ignoreLower) ==>
        && Up() == Accepted(old(Up()), r, accept, pass, posted, sendOk)
        && out == if accept && pass && posted then [Forward(r)] else []
    {
      out := [];
      if r.cseq <= rCseq && !(ignoreLower && r.verb == Notify) {
        return;
      }
      rCseq := r.cseq;
      if !accept {
        return;
      }
      uas, accepted := uas[r.cseq := r], accepted[r.cseq := r];
      if !pass {
        return;
      }
      if posted {
        out := [Forward(r)];
        if r.cseq !in recvd {
          recvd := recvd[r.cseq := r];
        }
      } else {
        var _ := SendReply(r, 500, false, Own, sendOk);
      }
    }

    /** onB2BEvent(reply) */
    method OnB2BReply(e: RepEvent, sendOk: bool)
      modifies this
      ensures Up() == ReplyDelivered(old(Up()), e, sendOk) && Down() == old(Down())
    {
      if e.fwd && e.cseq in recvd {
        var ok := SendReply(recvd[e.cseq], e.code, true, e.src, sendOk);
        if !ok {
          torn := true;
          lost := if e.code >= 200 then lost + {recvd[e.cseq].uid} else lost;
        }
      }
    }

    /** onRequestTxed for a request other than ACK. */
    method Transmitted(v: Verb, ghost src: Source)
      modifies this
      ensures Down() == Sent(old(Down()), v, src) && Up() == old(Up())
    {
      uac := uac[cseq := v];
      sent := sent[cseq := src];
      cseq := cseq + 1;
    }

    /** onB2BEvent(request) and relaySip(request); err is the result of sending. */
    method OnB2BRequest(r: Req, connected: bool, err: int) returns (reps: seq<RepEvent>)
      requires r.verb != Ack
      modifies this
      ensures Relayed(Down(), reps) == Relay(old(Down()), r, connected, err) && Up() == old(Up())
    {
      if r.maxForwards == 0 {
        return [Answer(r, 483)];
      }
      if r.verb == Invite && exists c | c in uac :: uac[c] == Invite {
        return [Answer(r, 491)];
      }
      if r.verb == Bye && !connected {
        return [Answer(r, 200)];
      }
      relayed := relayed[cseq := r];
      if err < 0 {
        return [Answer(r, ErrorCode(err))];
      }
      Transmitted(r.verb, Copy(r.uid));
      return [];
    }

    /** relaySip(ACK): searches the stored requests for the one acknowledged. */
    method OnB2BAck(ackCseq: int, sendOk: bool) returns (k: Option<int>)
      modifies this
      ensures k.Some? ==> k.value in old(relayed) && old(relayed)[k.value].cseq == ackCseq
      ensures k.None? ==> forall c :: c in old(relayed) ==> old(relayed)[c].cseq != ackCseq
      ensures Down() == RelayAck(old(Down()), k, sendOk) && Up() == old(Up())
    {
      k := None;
      var rest := relayed.Keys;
      while |rest| > 0
        invariant rest <= relayed.Keys
        invariant forall c :: c in relayed && c !in rest ==> relayed[c].cseq != ackCseq
        invariant k.None? && Up() == old(Up()) && Down() == old(Down())
        decreases rest
      {
        ghost var w := Member(rest);
        var c :| c in rest;
        if relayed[c].cseq == ackCseq {
          k := Some(c);
          break;
        }
        rest := rest - {c};
      }
      if k.Some? && k.value in uac && sendOk {
        uac := uac - {k.value};
        relayed := relayed - {k.value};
      }
    }

    /** onRxReply and onSipReply */
    method OnRxReply(c: int, code: int, pass: bool, src: Source) returns (reps: seq<RepEvent>)
      requires c in uac && c in sent && src == sent[c]
      modifies this
      ensures Relayed(Down(), reps) == ReplyReceived(old(Down()), c, code, pass) && Up() == old(Up())
    {
      reps := [];
      if pass {
        if c in relayed && code != 100 {
          var o := relayed[c];
          reps := [Reply(o.cseq, code, true, src)];
          if code >= 200 && !(code < 300 && o.verb == Invite) {
            relayed := relayed - {c};
          }
        } else {
          var n := 0;
          if est == c {
            n := estOther;
          } else if c in relayed {
            n := relayed[c].cseq;
          }
          reps := [Reply(n, code, false, src)];
        }
      }
      if code >= 200 && (uac[c] != Invite || code >= 300) {
        uac := uac - {c};
      }
    }

    /** A request sent again under a new CSeq takes its stored original along. */
    method UpdateUacTransCseq(oldCseq: int, newCseq: int)
      modifies this`relayed, this`est
      ensures Down() == Moved(old(Down()), oldCseq, newCseq) && Up() == old(Up())
    {
      if oldCseq == newCseq {
        return;
      }
      if oldCseq in relayed {
        relayed := relayed[newCseq := relayed[oldCseq]];
        relayed := relayed - {oldCseq};
      }
      if est == oldCseq {
        est := newCseq;
      }
    }

    /** The first part of finalize: every stored request is answered, if there is a peer to answer to. */
    method AnswerRelayed(peer: bool) returns (reps: seq<RepEvent>, ghost order: seq<int>)
      modifies this`relayed
      ensures Relayed(Down(), reps) == Finalized(old(Down()), order) && Up() == old(Up())
      ensures if peer then relayed == map[] else order == []
    {
      reps, order := [], [];
      if !peer {
        return;
      }
      while |relayed| > 0
        invariant Relayed(Down(), reps) == Finalized(old(Down()), order) && Up() == old(Up())
        decreases |relayed|
      {
        ghost var w := Member(relayed.Keys);
        var k :| k in relayed.Keys;
        var m := relayed - {k};
        assert m.Keys == relayed.Keys - {k};
        assert (order + [k])[..|order|] == order;
        reps, order := reps + [Answer(relayed[k], 481)], order + [k];
        relayed := m;
      }
    }

    /** termUasTrans: replies 481 to every open transaction and ends it even if that cannot be sent. */
    method TermUasTrans(fails: set<int>) returns (ghost order: seq<int>)
      requires forall c :: c in uas ==> uas[c].cseq == c
      modifies this
      ensures uas == map[] && Up() == Terminated(old(Up()), order, fails) && Down() == old(Down())
    {
      order := [];
      while |uas| > 0
        invariant forall c :: c in uas ==> uas[c].cseq == c
        invariant Up() == Terminated(old(Up()), order, fails) && Down() == old(Down())
        decreases |uas|
      {
        ghost var w := Member(uas.Keys);
        var c :| c in uas.Keys;
        ghost var m := uas - {c};
        assert m.Keys == uas.Keys - {c};
        ghost var uid := uas[c].uid;
        assert (order + [c])[..|order|] == order;
        order := order + [c];
        var ok := SendReply(uas[c], 481, false, Own, c !in fails);
        if !ok {
          lost := lost + {uid};
        }
        if c in uas {
          uas := uas - {c};
        }
      }
    }

    /** finalize: stored requests are answered to the peer, open transactions on the wire, and the leg is done. */
    method Finalize(peer: bool, fails: set<int>) returns (reps: seq<RepEvent>, ghost entries: seq<int>, ghost ended: seq<int>)
      requires forall c :: c in uas ==> uas[c].cseq == c
      modifies this
      ensures Down() == Finalized(old(Down()), entries).down.(trans := map[], closed := true)
      ensures reps == Finalized(old(Down()), entries).reps && (if peer then relayed == map[] else entries == [])
      ensures Up() == Terminated(old(Up()), ended, fails).(closed := true) && uas == map[]
    {
      reps, entries := AnswerRelayed(peer);
      ended := TermUasTrans(fails);
      uac := map[];
      closed := true;
    }
  }
}
