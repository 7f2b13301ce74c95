/** The retry queue of pkg/health/notify: its state and the effect of every
    operation on it. Sends are resolved by an outcome the caller supplies, so a
    property proved for all outcomes holds whatever the channels do.

    Four things in the state are history, kept by no field of the program: the
    identity `uid` of a message (its ID changes when a late queue is merged in),
    the multiset `delivered` of successful sends of a message (a fallback SMS is
    none), the `log` of what happened to each condition key, and the `fates` of the
    messages that were ever queued. */
module NotifierModel {
  const MAX_QUEUE: nat := 1000

  datatype Channel = Telegram | SMS | Email
  datatype Kind = Problem | Resolved | Event
  datatype Mode = ViaTelegram | ViaSMS | ViaTelegramOrSMS

  /** How one send ended. A send abandoned while in progress yields its own
      result later; `canceled` tells that the send's context was stopped. */
  datatype Outcome =
    | Sent
    | PastDeadline
    | Failed(canceled: bool)
    | Abandoned(canceled: bool)
  {
    /** Whether the outcome says anything about the channel's health. */
    predicate Judged() {
      match this
      case Sent => true
      case PastDeadline => false
      case Failed(canceled) => !canceled
      case Abandoned(canceled) => !canceled
    }
  }

  datatype Message = Message(
    id: int, uid: nat, createdAt: int, channel: Channel, kind: Kind, key: string, attempts: nat)

  /** An abandoned send still in progress: the message ID it is filed under, and
      the message it is a send of. */
  datatype Flight = Flight(id: int, uid: nat)

  /** A fallback SMS is out when it was sent, or hangs and may yet arrive. */
  datatype Entry =
    | Queued(uid: nat, key: string)
    | Stored(uid: nat, key: string)
    | Marked(key: string)
    | FallbackOut(uid: nat, key: string)
    | GaveBack(key: string)

  /** Every message ever queued, and those that left: handed to OnDrop, dropped as
      stale, or sent. */
  datatype Fates = Fates(ever: seq<Message>, handed: seq<Message>, stale: seq<Message>, sent: seq<Message>)
  {
    function Queue(ms: seq<Message>): Fates { this.(ever := ever + ms) }
    function Hand(ms: seq<Message>): Fates { this.(handed := handed + ms) }
    function Stale(m: Message): Fates { this.(stale := stale + [m]) }
    function Send(ms: seq<Message>): Fates { this.(sent := sent + ms) }
  }

  /** The sends in progress (`inflight` maps a message ID to the flight filed under
      it), and the identities given out and delivered so far. */
  datatype Sends = Sends(
    inflight: map<int, nat>, flights: map<nat, Flight>, nextFlight: nat, nextUid: nat, delivered: multiset<nat>)
  {
    function Deliver(uid: nat): Sends { this.(delivered := delivered + multiset{uid}) }

    /** Files the abandoned send of message uid under its ID. */
    function File(id: int, uid: nat): Sends {
      this.(inflight := inflight[id := nextFlight], flights := flights[nextFlight := Flight(id, uid)],
            nextFlight := nextFlight + 1)
    }

    predicate Filed(f: nat) {
      f in flights && flights[f].id in inflight && inflight[flights[f].id] == f
    }

    /** The flight's send returned. */
    function Land(f: nat, ok: bool): Sends
      requires f in flights
    {
      var t := if ok then Deliver(flights[f].uid) else this;
      t.(flights := flights - {f}, inflight := if Filed(f) then inflight - {flights[f].id} else inflight)
    }
  }

  datatype Options = Options(hasTelegram: bool, hasSMS: bool)

  datatype State = State(
    queue: seq<Message>,
    nextID: int,
    offline: bool,
    failing: bool,
    smsProblems: set<string>,
    resolvedBefore: map<string, int>,
    sends: Sends,
    log: seq<Entry>,
    fates: Fates)

  function Initial(): State {
    State([], 1, false, false, {}, map[], Sends(map[], map[], 0, 0, multiset{}), [], Fates([], [], [], []))
  }

  // ---------------------------------------------------------------- queue

  predicate Ascending(q: seq<Message>) {
    forall i, j :: 0 <= i < j < |q| ==> q[i].id < q[j].id
  }

  predicate HasID(q: seq<Message>, id: int) {
    exists i :: 0 <= i < |q| && q[i].id == id
  }

  /** removeLocked: drops the first message with the ID. */
  function Remove(q: seq<Message>, id: int): seq<Message> {
    if q == [] then []
    else if q[0].id == id then q[1..]
    else [q[0]] + Remove(q[1..], id)
  }

  /** The message removeLocked drops, if any. */
  function Removed(q: seq<Message>, id: int): seq<Message> {
    if q == [] then [] else if q[0].id == id then [q[0]] else Removed(q[1..], id)
  }

  /** bumpLocked: counts a failed attempt of every message with the ID. */
  function Bump(q: seq<Message>, id: int): (r: seq<Message>)
    ensures |r| == |q|
    ensures forall i :: 0 <= i < |q| ==>
              r[i] == if q[i].id == id then q[i].(attempts := q[i].attempts + 1) else q[i]
  {
    if q == [] then []
    else [if q[0].id == id then q[0].(attempts := q[0].attempts + 1) else q[0]] + Bump(q[1..], id)
  }

  function Trimmed(q: seq<Message>): seq<Message> {
    if |q| > MAX_QUEUE then q[|q| - MAX_QUEUE..] else q
  }

  /** What trim returns: the oldest messages over the bound. */
  function Overflow(q: seq<Message>): seq<Message> {
    if |q| > MAX_QUEUE then q[..|q| - MAX_QUEUE] else []
  }

  function Health(failing: bool, o: Outcome): bool {
    if o.Sent? then false else if o.Judged() then true else failing
  }

  /** trackLocked: files an abandoned send under the message's ID. */
  function Track(s: State, id: int, uid: nat, o: Outcome): State {
    if o.Abandoned? then s.(sends := s.sends.File(id, uid)) else s
  }

  /** enqueueTracked: queues a message and files its abandoned send in the same
      step. */
  function Enqueue(s: State, channel: Channel, kind: Kind, key: string, uid: nat, now: int, o: Outcome): State {
    var m := Message(s.nextID, uid, now, channel, kind, key, 0);
    var t := Track(s.(queue := s.queue + [m], nextID := s.nextID + 1, log := s.log + [Queued(uid, key)]),
                   m.id, uid, o);
    t.(queue := Trimmed(t.queue), fates := s.fates.Queue([m]).Hand(Overflow(t.queue)))
  }

  // ---------------------------------------------------------------- flush

  /** A PROBLEM queued for SMS whose condition has resolved since. */
  predicate Stale(s: State, m: Message) {
    m.channel == SMS && m.kind == Problem && m.key in s.resolvedBefore && m.id < s.resolvedBefore[m.key]
  }

  function InitiallyBlocked(s: State, opts: Options): set<Channel> {
    {Email} + (if s.offline || !opts.hasTelegram then {Telegram} else {})
            + (if !opts.hasSMS then {SMS} else {})
  }

  /** What Flush does with one message of its snapshot; `o` is how its send ends
      if it is sent. */
  function FlushOne(s: State, blocked: set<Channel>, m: Message, o: Outcome): (State, set<Channel>) {
    if m.channel in blocked then (s, blocked)
    else if m.id in s.sends.inflight then (s, blocked + {m.channel})
    else if Stale(s, m) then (s.(queue := Remove(s.queue, m.id), fates := s.fates.Stale(m)), blocked)
    else
      var h := if m.channel == Telegram then s.(failing := Health(s.failing, o)) else s;
      if o.Sent? then
        (h.(queue := Remove(h.queue, m.id), sends := h.sends.Deliver(m.uid), fates := h.fates.Send([m])), blocked)
      else (Track(h.(queue := Bump(h.queue, m.id)), m.id, m.uid, o), blocked + {m.channel})
  }

  function FlushAll(s: State, blocked: set<Channel>, pending: seq<Message>, o: int -> Outcome): State
    decreases |pending|
  {
    if pending == [] then s
    else
      var (t, b) := FlushOne(s, blocked, pending[0], o(pending[0].id));
      FlushAll(t, b, pending[1..], o)
  }

  // ---------------------------------------------------------------- SMS fallback

  /** fallbackDueItemLocked for the message at position i, with `last` spelled
      out: no later Telegram problem or RESOLVED of the key is queued. */
  predicate Due(s: State, i: nat)
    requires i < |s.queue|
  {
    var m := s.queue[i];
    && m.channel == Telegram && m.kind == Problem
    && (forall j :: i < j < |s.queue| ==> !Later(s.queue[j], m.key))
    && (m.key in s.resolvedBefore ==> m.id >= s.resolvedBefore[m.key])
    && m.key !in s.smsProblems
  }

  predicate Later(m: Message, key: string) {
    m.channel == Telegram && m.kind != Event && m.key == key
  }

  /** The messages of queue[i..] due for the fallback, in queue order. */
  function DueFrom(s: State, i: nat): seq<Message>
    requires i <= |s.queue|
    decreases |s.queue| - i
  {
    if i == |s.queue| then []
    else (if Due(s, i) then [s.queue[i]] else []) + DueFrom(s, i + 1)
  }

  function DueItems(s: State): seq<Message> {
    if s.failing then DueFrom(s, 0) else []
  }

  /** How many of the due messages are out: the fallback stops at the first that
      was not sent, and one abandoned while in progress may yet arrive. */
  function OutCount(due: seq<Message>, fb: string -> Outcome): (n: nat)
    ensures n <= |due|
  {
    if due == [] then 0
    else
      match fb(due[0].key)
      case Sent => 1 + OutCount(due[1..], fb)
      case Abandoned(_) => 1
      case _ => 0
  }

  function Keys(ms: seq<Message>): set<string> { set i | 0 <= i < |ms| :: ms[i].key }

  function OutEntries(ms: seq<Message>): (r: seq<Entry>)
    ensures |r| == |ms|
    ensures forall i :: 0 <= i < |ms| ==> r[i] == FallbackOut(ms[i].uid, ms[i].key)
  {
    seq(|ms|, i requires 0 <= i < |ms| => FallbackOut(ms[i].uid, ms[i].key))
  }

  /** smsFallback: the keys that went out stay in the SMS-sent set, and so does
      the one whose send was abandoned while in progress. */
  function Fallback(s: State, opts: Options, fb: string -> Outcome): State {
    if !opts.hasSMS then s
    else
      var due := DueItems(s);
      var out := due[..OutCount(due, fb)];
      s.(smsProblems := s.smsProblems + Keys(out), log := s.log + OutEntries(out))
  }

  function Flush(s: State, opts: Options, o: int -> Outcome, fb: string -> Outcome): State {
    Fallback(FlushAll(s, InitiallyBlocked(s, opts), s.queue, o), opts, fb)
  }

  // ---------------------------------------------------------------- notify

  function SendTelegram(s: State, opts: Options, kind: Kind, key: string, uid: nat, now: int, o: Outcome): State {
    if s.offline || !opts.hasTelegram then
      Enqueue(s.(failing := true), Telegram, kind, key, uid, now, PastDeadline)
    else
      var h := s.(failing := Health(s.failing, o));
      if o.Sent? then h.(sends := h.sends.Deliver(uid))
      else Enqueue(h, Telegram, kind, key, uid, now, o)
  }

  function SendSMS(s: State, kind: Kind, key: string, uid: nat, now: int, o: Outcome): State {
    if o.Sent? then s.(sends := s.sends.Deliver(uid))
    else Enqueue(s, SMS, kind, key, uid, now, o)
  }

  /** sendTelegramOrSMS; the second result tells that the SMS went out. */
  function SendEither(s: State, opts: Options, kind: Kind, key: string, uid: nat, now: int, tlg: Outcome, sms: Outcome)
    : (State, bool)
  {
    if !opts.hasSMS then (SendTelegram(s, opts, kind, key, uid, now, tlg), false)
    else
      var tried := !s.offline && opts.hasTelegram;
      var h := if tried then s.(failing := Health(s.failing, tlg)) else s;
      if tried && tlg.Sent? then (h.(sends := h.sends.Deliver(uid)), false)
      else if tried && tlg.PastDeadline? then (Enqueue(h, Telegram, kind, key, uid, now, PastDeadline), false)
      else if sms.Sent? then (h.(sends := h.sends.Deliver(uid)), true)
      else
        var c := if kind == Problem && sms.Abandoned? then h.(smsProblems := h.smsProblems + {key}) else h;
        if tried then (Enqueue(c, Telegram, kind, key, uid, now, tlg), false)
        else (Enqueue(c.(failing := true), Telegram, kind, key, uid, now, PastDeadline), false)
  }

  /** The keys leave the SMS-sent set, and their PROBLEMs queued so far are
      marked resolved. */
  function MarkKey(s: State, key: string): State {
    s.(smsProblems := s.smsProblems - {key},
       resolvedBefore := s.resolvedBefore[key := s.nextID],
       log := s.log + [Marked(key)])
  }

  /** resolvedBySMS. */
  function ResolvedBySMS(s: State, opts: Options, key: string, uid: nat, now: int, viaSMS: bool, o: Outcome): State {
    var t := MarkKey(s, key);
    if key !in s.smsProblems || viaSMS || !opts.hasSMS then t
    else SendSMS(t, Resolved, key, uid, now, o)
  }

  /** One Notify call: `tlg` and `sms` are how the message's own sends end, `rsms`
      the extra SMS of a RESOLVED, `fb` the fallback SMS of each key. */
  datatype Push = Push(kind: Kind, key: string, mode: Mode, now: int,
                       tlg: Outcome, sms: Outcome, rsms: Outcome, fb: string -> Outcome)

  /** The message's own delivery; mode sms without an SMS sender degrades to
      Telegram. */
  function Route(s: State, opts: Options, p: Push, uid: nat): (State, bool) {
    match p.mode
    case ViaSMS =>
      if opts.hasSMS then (SendSMS(s, p.kind, p.key, uid, p.now, p.sms), true)
      else (SendTelegram(s, opts, p.kind, p.key, uid, p.now, p.tlg), false)
    case ViaTelegramOrSMS => SendEither(s, opts, p.kind, p.key, uid, p.now, p.tlg, p.sms)
    case ViaTelegram => (SendTelegram(s, opts, p.kind, p.key, uid, p.now, p.tlg), false)
  }

  function Notify(s: State, opts: Options, p: Push): State {
    var uid := s.sends.nextUid;
    var (r, viaSMS) := Route(s.(sends := s.sends.(nextUid := uid + 2)), opts, p, uid);
    var t := if p.kind == Resolved then ResolvedBySMS(r, opts, p.key, uid + 1, p.now, viaSMS, p.rsms) else r;
    Fallback(t, opts, p.fb)
  }

  // ---------------------------------------------------------------- other steps

  function Expire(s: State, cutoff: int): State {
    s.(queue := NotBefore(s.queue, cutoff), fates := s.fates.Hand(Expired(s.queue, cutoff)))
  }

  function NotBefore(q: seq<Message>, cutoff: int): seq<Message> {
    if q == [] then []
    else (if q[0].createdAt < cutoff then [] else [q[0]]) + NotBefore(q[1..], cutoff)
  }

  /** The messages Expire drops and returns. */
  function Expired(q: seq<Message>, cutoff: int): seq<Message> {
    if q == [] then []
    else (if q[0].createdAt < cutoff then [q[0]] else []) + Expired(q[1..], cutoff)
  }

  /** settle: the abandoned send of flight f returned. Only a flight still filed
      under its own ID acts on the queue. */
  function Settle(s: State, f: nat, ok: bool): State
    requires f in s.sends.flights
  {
    var id := s.sends.flights[f].id;
    var t := s.(sends := s.sends.Land(f, ok));
    if !s.sends.Filed(f) then t
    else if !ok then t.(queue := Bump(s.queue, id))
    else t.(failing := s.failing && !QueuedOn(s.queue, id, Telegram), queue := Remove(s.queue, id),
            fates := s.fates.Send(Removed(s.queue, id)))
  }

  /** queuedChannelLocked. */
  predicate QueuedOn(q: seq<Message>, id: int, channel: Channel) {
    exists i :: 0 <= i < |q| && q[i].id == id && q[i].channel == channel
  }

  /** ForgetEnded for one key of the SMS-sent set. */
  function Forget(s: State, key: string): State
    requires key in s.smsProblems
  {
    MarkKey(s, key)
  }

  /** settleFallback: a late failure takes the key out of the SMS-sent set. */
  function SettleFallback(s: State, key: string, ok: bool): State {
    if ok || key !in s.smsProblems then s
    else s.(smsProblems := s.smsProblems - {key}, log := s.log + [GaveBack(key)])
  }

  /** RestoreSMSProblems: keys whose RESOLVED was seen since start stay out. */
  function RestoreSMS(s: State, keys: set<string>): State {
    s.(smsProblems := s.smsProblems + (keys - s.resolvedBefore.Keys))
  }

  /** RestoreChannels: a stored failure of Telegram may be taken over; that a
      success seen since start wins over it is left open. */
  function RestoreChannels(s: State, failing: bool): State { s.(failing := s.failing || failing) }

  // ---------------------------------------------------------------- merge

  function Top(stored: seq<Message>): (top: int)
    ensures top >= 0
    ensures forall i :: 0 <= i < |stored| ==> stored[i].id <= top
  {
    if stored == [] then 0
    else
      var t := Top(stored[..|stored| - 1]);
      var last := stored[|stored| - 1].id;
      if last > t then last else t
  }

  /** The in-memory messages renumbered after the highest stored ID. */
  function Renumbered(q: seq<Message>, top: int): (r: seq<Message>)
    ensures |r| == |q|
    ensures forall i :: 0 <= i < |q| ==> r[i] == q[i].(id := top + 1 + i)
  {
    seq(|q|, i requires 0 <= i < |q| => q[i].(id := top + 1 + i))
  }

  /** How many messages of an ascending queue lie before a mark. */
  function Before(q: seq<Message>, mark: int): (n: nat)
    ensures n <= |q|
    ensures forall i :: 0 <= i < n ==> q[i].id < mark
    ensures n < |q| ==> q[n].id >= mark
  {
    if q == [] || q[0].id >= mark then 0 else 1 + Before(q[1..], mark)
  }

  /** moveResolvedLocked for one mark: the new ID of the first in-memory message
      at or past it, else the next ID to be given. */
  function MovedMark(q: seq<Message>, top: int, nextID: int, mark: int): int {
    var n := Before(q, mark);
    if n < |q| then top + 1 + n else nextID
  }

  /** moveResolvedLocked. */
  function MoveMarks(marks: map<string, int>, q: seq<Message>, top: int, nextID: int): map<string, int> {
    map k | k in marks :: MovedMark(q, top, nextID, marks[k])
  }

  /** Stored messages enter with identities of their own. */
  function Identified(stored: seq<Message>, uid: nat): (r: seq<Message>)
    ensures |r| == |stored|
    ensures forall i :: 0 <= i < |stored| ==> r[i] == stored[i].(uid := uid + i)
  {
    seq(|stored|, i requires 0 <= i < |stored| => stored[i].(uid := uid + i))
  }

  function StoredEntries(ms: seq<Message>): (r: seq<Entry>)
    ensures |r| == |ms|
    ensures forall i :: 0 <= i < |ms| ==> r[i] == Entry.Stored(ms[i].uid, ms[i].key)
  {
    seq(|ms|, i requires 0 <= i < |ms| => Entry.Stored(ms[i].uid, ms[i].key))
  }

  /** renumberLocked: a mark follows its message, and a mark of a message no
      longer queued is dropped. */
  function RenumberMarks(inflight: map<int, nat>, q: seq<Message>, top: int): map<int, nat> {
    if q == [] then map[]
    else
      var n := |q| - 1;
      var r := RenumberMarks(inflight, q[..n], top);
      if q[n].id in inflight then r[top + 1 + n := inflight[q[n].id]] else r
  }

  function RenumberFlight(d: Sends, q: seq<Message>, top: int, f: nat): Flight
    requires f in d.flights
  {
    if d.Filed(f) && HasID(q, d.flights[f].id)
    then d.flights[f].(id := top + 1 + Before(q, d.flights[f].id))
    else d.flights[f]
  }

  function RenumberSends(d: Sends, q: seq<Message>, top: int): Sends {
    d.(inflight := RenumberMarks(d.inflight, q, top),
       flights := map f | f in d.flights :: RenumberFlight(d, q, top, f))
  }

  /** What the store hands over: rows in ID order, IDs positive. */
  predicate FromStore(stored: seq<Message>) {
    Ascending(stored) && forall i :: 0 <= i < |stored| ==> stored[i].id > 0
  }

  function Merge(s: State, stored: seq<Message>): State {
    var top := Top(stored);
    var nextID := if s.nextID > top + |s.queue| + 1 then s.nextID else top + |s.queue| + 1;
    var rows := Identified(stored, s.sends.nextUid);
    var sends := RenumberSends(s.sends, s.queue, top);
    var merged := rows + Renumbered(s.queue, top);
    s.(queue := Trimmed(merged),
       nextID := nextID,
       resolvedBefore := MoveMarks(s.resolvedBefore, s.queue, top, nextID),
       sends := sends.(nextUid := sends.nextUid + |stored|),
       log := s.log + StoredEntries(rows),
       fates := s.fates.Queue(rows).Hand(Overflow(merged)))
  }

  // ---------------------------------------------------------------- runs

  /** One atomic step of the notifier. */
  datatype Step =
    | DoNotify(push: Push)
    | DoFlush(sends: int -> Outcome, fb: string -> Outcome)
    | DoMerge(stored: seq<Message>)
    | DoExpire(cutoff: int)
    | DoSettle(flight: nat, ok: bool)
    | DoForget(key: string)
    | DoSettleFallback(key: string, ok: bool)
    | DoRestoreSMS(keys: set<string>)
    | DoRestoreChannels(failing: bool)
    | DoSetOffline(offline: bool)

  predicate Enabled(s: State, step: Step) {
    match step
    case DoMerge(stored) => FromStore(stored)
    case DoSettle(f, _) => f in s.sends.flights
    case DoForget(key) => key in s.smsProblems
    case _ => true
  }

  function Next(s: State, opts: Options, step: Step): State
    requires Enabled(s, step)
  {
    match step
    case DoNotify(p) => Notify(s, opts, p)
    case DoFlush(o, fb) => Flush(s, opts, o, fb)
    case DoMerge(stored) => Merge(s, stored)
    case DoExpire(cutoff) => Expire(s, cutoff)
    case DoSettle(f, ok) => Settle(s, f, ok)
    case DoForget(key) => Forget(s, key)
    case DoSettleFallback(key, ok) => SettleFallback(s, key, ok)
    case DoRestoreSMS(keys) => RestoreSMS(s, keys)
    case DoRestoreChannels(b) => RestoreChannels(s, b)
    case DoSetOffline(b) => s.(offline := b)
  }

  /** The states a notifier goes through from its start, one per step. */
  ghost predicate Run(opts: Options, states: seq<State>, steps: seq<Step>) {
    && |states| == |steps| + 1
    && states[0] == Initial()
    && forall i :: 0 <= i < |steps| ==> Enabled(states[i], steps[i]) && states[i + 1] == Next(states[i], opts, steps[i])
  }
}
