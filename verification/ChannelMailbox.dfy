/**
 * The mailbox between the thread that receives from the bridge and the reader
 * that owns a browser socket: posters queue under a lock and signal an event
 * counter after it; the reader clears the counter before it takes the queue.
 */
module ChannelMailboxModule {

  /** The largest value an event counter can hold. */
  const COUNTER_MAX: nat := 0xffff_ffff_ffff_fffe

  datatype Mailbox = Mailbox(outbox: seq<string>, teardown: bool, announce: bool, counter: nat)

  const EMPTY := Mailbox([], false, true, 0)

  // The atomic steps: what happens under the lock, and the accesses to the counter.

  function Pushed(b: Mailbox, bytes: string): Mailbox { b.(outbox := b.outbox + [bytes]) }

  function Requested(b: Mailbox, announce: bool): Mailbox { b.(teardown := true, announce := announce) }

  /** A saturated counter stays as it is: a wake is already pending. */
  function Signalled(b: Mailbox): Mailbox { if b.counter < COUNTER_MAX then b.(counter := b.counter + 1) else b }

  function Cleared(b: Mailbox): Mailbox { b.(counter := 0) }

  function Taken(b: Mailbox): Mailbox { b.(outbox := []) }

  class ChannelMailbox {
    var outbox: seq<string>
    var teardown: bool
    var announce: bool
    var counter: nat

    ghost function Contents(): Mailbox
      reads this
    {
      Mailbox(outbox, teardown, announce, counter)
    }

    constructor ()
      ensures Contents() == EMPTY
    {
      outbox, teardown, announce, counter := [], false, true, 0;
    }

    method Signal()
      modifies this
      ensures Contents() == Signalled(old(Contents()))
    {
      if counter < COUNTER_MAX {
        counter := counter + 1;
      }
    }

    method Post(bytes: string)
      modifies this
      ensures Contents() == Signalled(Pushed(old(Contents()), bytes))
    {
      outbox := outbox + [bytes];
      Signal();
    }

    method RequestTeardown(announceOnClose: bool)
      modifies this
      ensures Contents() == Signalled(Requested(old(Contents()), announceOnClose))
    {
      teardown := true;
      announce := announceOnClose;
      Signal();
    }

    /** One read of the counter: its value, and zero is left behind. */
    method Read() returns (n: nat)
      modifies this
      ensures n == old(counter) && Contents() == Cleared(old(Contents()))
    {
      n := counter;
      counter := 0;
    }

    method Drain() returns (out: seq<string>, outTeardown: bool, outAnnounce: bool)
      modifies this
      ensures Contents() == Taken(Cleared(old(Contents())))
      ensures out == old(outbox) && outTeardown == old(teardown) && outAnnounce == old(announce)
    {
      var n := Read();
      while n > 0
        invariant Contents() == Cleared(old(Contents()))
        decreases n + counter
      {
        n := Read();
      }
      out, outTeardown, outAnnounce := outbox, teardown, announce;
      outbox := [];
    }
  }

  // ---- All interleavings

  datatype Reader = Polling | Clearing | Taking

  /**
   * The mailbox with its users. `signalling` posters are between their push and
   * their signal. `posted` and `requested` are the posts and teardown requests in
   * lock order, `drained` and `seen` what the reader has been given.
   */
  datatype System = System(
    box: Mailbox,
    signalling: nat,
    reader: Reader,
    posted: seq<string>,
    requested: seq<bool>,
    drained: seq<string>,
    seen: (bool, bool))

  const START := System(EMPTY, 0, Polling, [], [], [], (false, true))

  datatype Move = Push(bytes: string) | Request(announce: bool) | Signal | Wake | ReadSome | ReadNone | Take

  predicate Enabled(s: System, a: Move) {
    match a
    case Push(_) => true
    case Request(_) => true
    case Signal => s.signalling > 0
    case Wake => s.reader.Polling? && s.box.counter > 0
    case ReadSome => s.reader.Clearing? && s.box.counter > 0
    case ReadNone => s.reader.Clearing? && s.box.counter == 0
    case Take => s.reader.Taking?
  }

  function Do(s: System, a: Move): System
    requires Enabled(s, a)
  {
    match a
    case Push(bytes) => s.(box := Pushed(s.box, bytes), posted := s.posted + [bytes], signalling := s.signalling + 1)
    case Request(announce) =>
      s.(box := Requested(s.box, announce), requested := s.requested + [announce], signalling := s.signalling + 1)
    case Signal => s.(box := Signalled(s.box), signalling := s.signalling - 1)
    case Wake => s.(reader := Clearing)
    case ReadSome => s.(box := Cleared(s.box))
    case ReadNone => s.(reader := Taking)
    case Take =>
      s.(box := Taken(s.box), reader := Polling, drained := s.drained + s.box.outbox, seen := (s.box.teardown, s.box.announce))
  }

  /** The system after some moves; moves that are not enabled are not made. */
  function Run(moves: seq<Move>): System {
    if moves == [] then START else
    var s := Run(moves[..|moves| - 1]);
    if Enabled(s, moves[|moves| - 1]) then Do(s, moves[|moves| - 1]) else s
  }

  /** The teardown state the requests so far amount to: the last one decides on the announcement. */
  function Teardown(requested: seq<bool>): (bool, bool) {
    if requested == [] then (false, true) else (true, requested[|requested| - 1])
  }

  /** Something is in the mailbox that the reader has not been given. */
  predicate Pending(s: System) { s.box.outbox != [] || s.seen != Teardown(s.requested) }

  /** The reader is awake, or something is about to wake it. */
  predicate Attended(s: System) { s.box.counter > 0 || s.signalling > 0 || !s.reader.Polling? }

  predicate Sound(s: System) {
    && s.drained + s.box.outbox == s.posted
    && (s.box.teardown, s.box.announce) == Teardown(s.requested)
    && (Pending(s) ==> Attended(s))
  }

  lemma DoSound(s: System, a: Move)
    requires Sound(s) && Enabled(s, a)
    ensures Sound(Do(s, a))
  {
    match a {
      case Push(bytes) => assert s.drained + (s.box.outbox + [bytes]) == s.drained + s.box.outbox + [bytes];
      case Take => assert s.drained + s.box.outbox + [] == s.drained + s.box.outbox;
      case _ =>
    }
  }

  /**
   * Under every interleaving: what the reader has been given, followed by what is
   * queued, is everything posted in lock order; and whenever something is left to
   * give, the counter is positive, a poster is about to signal, or the reader is
   * on its way to take it.
   */
  lemma {:induction false} NothingLost(moves: seq<Move>)
    ensures Sound(Run(moves))
  {
    if moves != [] {
      NothingLost(moves[..|moves| - 1]);
      var s := Run(moves[..|moves| - 1]);
      if Enabled(s, moves[|moves| - 1]) {
        DoSound(s, moves[|moves| - 1]);
      }
    }
  }

  /** Where all is quiet, everything has been delivered. */
  lemma QuietMeansDelivered(moves: seq<Move>)
    requires var s := Run(moves); s.reader.Polling? && s.signalling == 0 && s.box.counter == 0
    ensures var s := Run(moves); s.drained == s.posted && s.seen == Teardown(s.requested)
  {
    NothingLost(moves);
    var s := Run(moves);
    assert s.drained + [] == s.drained;
  }

  /** A reader that is woken up and left alone takes everything there is. */
  lemma WokenReaderTakesAll(moves: seq<Move>)
    requires var s := Run(moves); s.reader.Polling? && s.box.counter > 0
    ensures var s := Run(moves); var t := Run(moves + [Wake] + [ReadSome] + [ReadNone] + [Take]);
      t.drained == s.posted == t.posted && t.seen == Teardown(s.requested) && !Pending(t)
  {
    NothingLost(moves);
    RunMore(moves, Wake);
    RunMore(moves + [Wake], ReadSome);
    RunMore(moves + [Wake] + [ReadSome], ReadNone);
    RunMore(moves + [Wake] + [ReadSome] + [ReadNone], Take);
    hide Run;
  }

  lemma RunMore(moves: seq<Move>, a: Move)
    ensures Run(moves + [a]) == var s := Run(moves); if Enabled(s, a) then Do(s, a) else s
  {
    assert (moves + [a])[..|moves|] == moves;
    hide Do, Enabled;
  }
}
