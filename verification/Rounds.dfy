// What the event loop and the restart loop do with what they meet, as blocks of the state machine: which blocks,
// in which order, and where the loops end (priv/efz_external.py:472-619).
module Rounds {
  import opened Bytes
  import opened Records
  import opened Supervisor
  import opened Lifecycle
  import opened JournalObject
  import Bookkeeping
  import Causes
  import opened Wrappers

  /** A line of the launcher: the worker's pid, its end, or one that cannot be read. */
  datatype StatusRow = PidRow(pid: int) | EndRow(evidence: Evidence) | BadRow

  datatype Peer = NoPeer | Peer(pid: int, sameUser: bool)

  /** What one round of the event loop meets: the clock, what `select` brings and, per frame, the clock again. */
  datatype Round = Round(
    now: real,
    parentReady: bool,
    peer: Peer,
    status: seq<StatusRow>,
    received: Option<bytes>,
    clock: nat -> real,
    launcherLost: bool)

  /** What one worker generation meets. */
  datatype Span = Span(workerConfig: bytes, start: real, buildChanged: bool, rounds: seq<Round>)

  /** Errors that end the controller itself; Cut is a kill from outside. */
  datatype Fatal =
    | JournalFailed(e: JournalError)
    | BuildChanged
    | PeerUid
    | LauncherFrame
    | TerminationUnconfirmed
    | CleanupUnconfirmed
    | LauncherLost
    | Cut

  // ----- blocks, one after another -----

  /** One block, where the loop allows it. */
  function Through(lib: Library, c: Config, s: Sup, b: Block): Sup {
    if Shaped(s) && Can(c, s, b) then After(lib, c, s, b).0 else s
  }

  function Replay(lib: Library, c: Config, s: Sup, blocks: seq<Block>): Sup {
    if blocks == [] then s
    else Through(lib, c, Replay(lib, c, s, blocks[..|blocks| - 1]), blocks[|blocks| - 1])
  }

  lemma ReplayOne(lib: Library, c: Config, s: Sup, blocks: seq<Block>, b: Block)
    ensures Replay(lib, c, s, blocks + [b]) == Through(lib, c, Replay(lib, c, s, blocks), b)
    ensures Replay(lib, c, s, [b]) == Through(lib, c, s, b)
  {
    hide Through;
    assert (blocks + [b])[..|blocks|] == blocks && [b][..0] == [];
  }

  lemma {:induction false} ReplayMore(lib: Library, c: Config, s: Sup, a: seq<Block>, b: seq<Block>)
    ensures Replay(lib, c, s, a + b) == Replay(lib, c, Replay(lib, c, s, a), b)
    decreases |b|
  {
    hide Through;
    if b == [] {
      assert a + b == a;
    } else {
      assert (a + b)[..|a + b| - 1] == a + b[..|b| - 1];
      ReplayMore(lib, c, s, a, b[..|b| - 1]);
    }
  }

  /** A campaign is where its blocks lead. */
  lemma {:induction false} CampaignReplays(lib: Library, c: Config, states: seq<Sup>, blocks: seq<Block>, i: nat,
                                           j: nat)
    requires Campaign(lib, c, states, blocks) && i <= j <= |blocks|
    ensures states[j] == Replay(lib, c, states[i], blocks[i..j])
    decreases j
  {
    hide Shaped, Can, After;
    if i < j {
      CampaignReplays(lib, c, states, blocks, i, j - 1);
      assert blocks[i..j][..j - i - 1] == blocks[i..j - 1];
      assert Moves(lib, c, states[j - 1], blocks[j - 1], states[j]);
    } else {
      assert blocks[i..j] == [];
    }
  }

  /** From s, and from the blocks b, to t and to these. */
  predicate Came(lib: Library, c: Config, s: Sup, b: seq<Block>, done: seq<Block>, t: Sup, blocks: seq<Block>) {
    blocks == b + done && t == Replay(lib, c, s, done)
  }

  lemma CameNowhere(lib: Library, c: Config, s: Sup, b: seq<Block>)
    ensures Came(lib, c, s, b, [], s, b)
  {
  }

  lemma CameOne(lib: Library, c: Config, s: Sup, b: seq<Block>, done: seq<Block>, t: Sup, blocks: seq<Block>,
                next: Block)
    requires Came(lib, c, s, b, done, t, blocks)
    ensures Came(lib, c, s, b, done + [next], Through(lib, c, t, next), blocks + [next])
  {
    hide Replay, Through;
    ReplayOne(lib, c, s, done, next);
  }

  lemma CameTo(lib: Library, c: Config, s: Sup, b: seq<Block>, done: seq<Block>, t: Sup, blocks: seq<Block>)
    requires Came(lib, c, s, b, done, t, blocks)
    ensures t == Replay(lib, c, s, done) && blocks == b + done
  {
    hide Replay;
  }

  lemma CameMore(lib: Library, c: Config, s: Sup, b: seq<Block>, d1: seq<Block>, s1: Sup, b1: seq<Block>,
                 d2: seq<Block>, s2: Sup, b2: seq<Block>)
    requires Came(lib, c, s, b, d1, s1, b1) && Came(lib, c, s1, b1, d2, s2, b2)
    ensures Came(lib, c, s, b, d1 + d2, s2, b2)
  {
    hide Replay;
    ReplayMore(lib, c, s, d1, d2);
  }

  // ----- one round of the event loop -----

  function StatusBlock(row: StatusRow): Block
    requires !row.BadRow?
  {
    match row
    case PidRow(pid) => Pid(pid)
    case EndRow(e) => End(e)
  }

  /** The lines of the launcher up to the first that cannot be read. */
  function StatusBlocks(rows: seq<StatusRow>): seq<Block> {
    if rows == [] || rows[0].BadRow? then []
    else [StatusBlock(rows[0])] + StatusBlocks(rows[1..])
  }

  predicate Greets(g: Gen, peer: Peer) {
    !g.connected && !g.eof && peer.Peer?
  }

  function GreetBlocks(g: Gen, peer: Peer): seq<Block> {
    if Greets(g, peer) then [Connect(peer.pid)] else []
  }

  /** Deadlines, parent, peer, launcher. */
  function LookBlocks(g: Gen, x: Round): seq<Block> {
    [Tick(x.now)] + (if x.parentReady then [Parent] else []) + GreetBlocks(g, x.peer)
    + StatusBlocks(x.status)
  }

  lemma LookParts(g: Gen, g': Gen, x: Round, done: seq<Block>)
    requires g'.connected == g.connected && g'.eof == g.eof
    requires done == [Block.Tick(x.now)] + (if x.parentReady then [Parent] else [])
    ensures done + GreetBlocks(g', x.peer) + StatusBlocks(x.status) == LookBlocks(g, x)
  {
    hide StatusBlocks;
  }

  /** The worker, if its socket was watched when the round began. */
  function ReadBlocks(watched: bool, eof: bool, x: Round): seq<Block> {
    if !watched || eof || x.received.None? then []
    else [if x.received.value == [] then Eof else Data(x.received.value, x.now)]
  }

  /** The frames that are waiting, each under a clock of its own, up to the first that is rejected. */
  function RowBlocks(lib: Library, c: Config, s: Sup, clock: nat -> real, i: nat): seq<Block>
    decreases |s.gen.queue|
  {
    if s.gen.queue == [] then [] else
    var t := Through(lib, c, s, Row(clock(i)));
    [Row(clock(i))] + (if |t.gen.queue| < |s.gen.queue| then RowBlocks(lib, c, t, clock, i + 1) else [])
  }

  /** What is read, and then what it completed. */
  function HearBlocks(lib: Library, c: Config, s: Sup, read: seq<Block>, clock: nat -> real): seq<Block> {
    read + RowBlocks(lib, c, Replay(lib, c, s, read), clock, 0)
  }

  function RoundBlocks(lib: Library, c: Config, s: Sup, x: Round): seq<Block> {
    var look := LookBlocks(s.gen, x);
    look + HearBlocks(lib, c, Replay(lib, c, s, look), ReadBlocks(s.gen.connected, s.gen.eof, x), x.clock)
  }

  function AfterRound(lib: Library, c: Config, s: Sup, x: Round): Sup {
    Replay(lib, c, s, RoundBlocks(lib, c, s, x))
  }

  /** What ends the controller in this round, in this order, before the worker is heard. */
  function Meets(c: Config, s: Sup, x: Round): Option<Fatal> {
    var g := Timers(c, s, x.now).gen;
    if g.killAt.Some? && x.now - g.killAt.value > 5.0 then Some(TerminationUnconfirmed)
    else if Greets(s.gen, x.peer) && !x.peer.sameUser then Some(PeerUid)
    else if BadRow in x.status then Some(LauncherFrame)
    else None
  }

  /** A controller that sent its stop byte more than five seconds ago gives up, before it looks at who connected; and
      that before it looks for a line of the launcher it cannot read. */
  lemma MeetsExactly(c: Config, s: Sup, x: Round)
    ensures var (g, m) := (s.gen, Meets(c, s, x));
            && (m == Some(TerminationUnconfirmed) <==> g.killAt.Some? && x.now - g.killAt.value > 5.0)
            && (m == Some(PeerUid) <==> m != Some(TerminationUnconfirmed)
                                        && !g.connected && !g.eof && x.peer.Peer? && !x.peer.sameUser)
            && (m == Some(LauncherFrame) <==> m !in {Some(TerminationUnconfirmed), Some(PeerUid)} && BadRow in x.status)
            && m in {None, Some(TerminationUnconfirmed), Some(PeerUid), Some(LauncherFrame)}
  {
    hide Late;
  }

  /** In every round the deadlines are looked at first, and whatever the parent, the listener and the launcher bring
      comes before what the worker sent. */
  lemma WorkerComesLast(lib: Library, c: Config, s: Sup, x: Round, i: nat, j: nat)
    requires i <= j < |RoundBlocks(lib, c, s, x)|
    ensures var blocks := RoundBlocks(lib, c, s, x);
            && blocks[0] == Tick(x.now)
            && (OfWorker(blocks[i]) ==> OfWorker(blocks[j]))
            && (blocks[i].Row? ==> blocks[j].Row?)
  {
    hide Replay;
    var look := LookBlocks(s.gen, x);
    var t := Replay(lib, c, s, look);
    var read := ReadBlocks(s.gen.connected, s.gen.eof, x);
    LooksElsewhere(s.gen, x);
    OnlyRows(lib, c, Replay(lib, c, t, read), x.clock, 0);
  }

  /** Two looks at the clock, deaths of the parent, connections or reads; only lines of the launcher and frames of the
      worker come more than once in a round. */
  predicate SameKind(a: Block, b: Block) {
    match a
    case Tick(_) => b.Tick?
    case Parent => b.Parent?
    case Connect(_) => b.Connect?
    case Data(_, _) => b.Data? || b.Eof?
    case Eof => b.Data? || b.Eof?
    case _ => false
  }

  /** The launcher's lines among the blocks, in order. */
  function Lines(blocks: seq<Block>): seq<StatusRow> {
    if blocks == [] then [] else
    var n := |blocks| - 1;
    Lines(blocks[..n]) + match blocks[n]
                         case Pid(pid) => [PidRow(pid)]
                         case End(e) => [EndRow(e)]
                         case _ => []
  }

  lemma {:induction false} LinesConcat(a: seq<Block>, b: seq<Block>)
    ensures Lines(a + b) == Lines(a) + Lines(b)
  {
    if b == [] {
      assert a + b == a;
    } else {
      assert (a + b)[..|a + b| - 1] == a + b[..|b| - 1];
      LinesConcat(a, b[..|b| - 1]);
    }
  }

  lemma {:induction false} NoLines(blocks: seq<Block>)
    requires forall i :: 0 <= i < |blocks| ==> !blocks[i].Pid? && !blocks[i].End?
    ensures Lines(blocks) == []
  {
    if blocks != [] {
      NoLines(blocks[..|blocks| - 1]);
    }
  }

  lemma {:induction false} StatusLines(rows: seq<StatusRow>)
    requires BadRow !in rows
    ensures Lines(StatusBlocks(rows)) == rows
    ensures forall i :: 0 <= i < |StatusBlocks(rows)| ==> StatusBlocks(rows)[i].Pid? || StatusBlocks(rows)[i].End?
  {
    if rows != [] {
      StatusLines(rows[1..]);
      var b := StatusBlock(rows[0]);
      LinesConcat([b], StatusBlocks(rows[1..]));
      assert [b][..0] == [] && Lines([b]) == [rows[0]];
    }
  }

  predicate OfWorker(b: Block) { b.Data? || b.Eof? || b.Row? }

  lemma LooksElsewhere(g: Gen, x: Round)
    ensures var blocks := LookBlocks(g, x);
            blocks != [] && blocks[0] == Tick(x.now) && forall i :: 0 <= i < |blocks| ==> !OfWorker(blocks[i])
  {
    StatusElsewhere(x.status);
  }

  lemma {:induction false} StatusElsewhere(rows: seq<StatusRow>)
    ensures forall i :: 0 <= i < |StatusBlocks(rows)| ==> !OfWorker(StatusBlocks(rows)[i])
  {
    if rows != [] && !rows[0].BadRow? {
      StatusElsewhere(rows[1..]);
    }
  }

  lemma {:induction false} OnlyRows(lib: Library, c: Config, s: Sup, clock: nat -> real, n: nat)
    ensures forall i :: 0 <= i < |RowBlocks(lib, c, s, clock, n)| ==> RowBlocks(lib, c, s, clock, n)[i].Row?
    decreases |s.gen.queue|
  {
    hide Through;
    if s.gen.queue != [] {
      var t := Through(lib, c, s, Row(clock(n)));
      if |t.gen.queue| < |s.gen.queue| {
        OnlyRows(lib, c, t, clock, n + 1);
      }
    }
  }

  lemma StatusMembers(rows: seq<StatusRow>)
    ensures forall i :: 0 <= i < |StatusBlocks(rows)| ==> StatusBlocks(rows)[i].Pid? || StatusBlocks(rows)[i].End?
  {
    if rows != [] && !rows[0].BadRow? {
      StatusMembers(rows[1..]);
    }
  }

  lemma LookMembers(g: Gen, x: Round)
    ensures var look := LookBlocks(g, x);
            && (forall now :: Tick(now) in look <==> now == x.now)
            && (Parent in look <==> x.parentReady)
            && (forall pid :: Connect(pid) in look <==> !g.connected && !g.eof && x.peer.Peer? && x.peer.pid == pid)
            && (forall i, j :: 0 <= i < j < |look| ==> !SameKind(look[i], look[j]))
  {
    hide StatusBlocks;
    StatusMembers(x.status);
  }

  lemma LookLines(g: Gen, x: Round)
    requires BadRow !in x.status
    ensures Lines(LookBlocks(g, x)) == x.status
  {
    hide StatusBlocks, Lines;
    StatusLines(x.status);
    var first := [Block.Tick(x.now)] + (if x.parentReady then [Parent] else []) + GreetBlocks(g, x.peer);
    assert LookBlocks(g, x) == first + StatusBlocks(x.status);
    NoLines(first);
    LinesConcat(first, StatusBlocks(x.status));
  }

  /** What is read of the worker and the frames behind it. */
  lemma HearMembers(lib: Library, c: Config, s: Sup, watched: bool, eof: bool, x: Round)
    ensures var hear := HearBlocks(lib, c, s, ReadBlocks(watched, eof, x), x.clock);
            && (forall i :: 0 <= i < |hear| ==> OfWorker(hear[i]))
            && (forall data, now :: Data(data, now) in hear
                  <==> watched && !eof && x.received == Some(data) && data != [] && now == x.now)
            && (Eof in hear <==> watched && !eof && x.received == Some([]))
            && (forall i, j :: 0 <= i < j < |hear| ==> !SameKind(hear[i], hear[j]))
  {
    hide Replay, RowBlocks;
    OnlyRows(lib, c, Replay(lib, c, s, ReadBlocks(watched, eof, x)), x.clock, 0);
  }

  /** A round carries out exactly what it meets, once: a look at the clock, the parent's death, a connection while
      there is none, and what was read of a worker that was connected when it began; and every line of the launcher,
      in order. */
  lemma RoundExactly(lib: Library, c: Config, s: Sup, x: Round)
    requires BadRow !in x.status
    ensures var (g, blocks) := (s.gen, RoundBlocks(lib, c, s, x));
            && (forall now :: Tick(now) in blocks <==> now == x.now)
            && (Parent in blocks <==> x.parentReady)
            && (forall pid :: Connect(pid) in blocks <==> !g.connected && !g.eof && x.peer.Peer? && x.peer.pid == pid)
            && Lines(blocks) == x.status
            && (forall data, now :: Data(data, now) in blocks
                  <==> g.connected && !g.eof && x.received == Some(data) && data != [] && now == x.now)
            && (Eof in blocks <==> g.connected && !g.eof && x.received == Some([]))
            && forall i, j :: 0 <= i < j < |blocks| ==> !SameKind(blocks[i], blocks[j])
  {
    hide Replay, LookBlocks, HearBlocks, ReadBlocks, Lines;
    var look := LookBlocks(s.gen, x);
    var hear := HearBlocks(lib, c, Replay(lib, c, s, look), ReadBlocks(s.gen.connected, s.gen.eof, x), x.clock);
    LookMembers(s.gen, x);
    LookLines(s.gen, x);
    LooksElsewhere(s.gen, x);
    HearMembers(lib, c, Replay(lib, c, s, look), s.gen.connected, s.gen.eof, x);
    NoLines(hear);
    LinesConcat(look, hear);
  }

  lemma RowShortens(lib: Library, c: Config, s: Sup, now: real)
    requires Inv(c, s) && s.live && s.gen.queue != []
    ensures var t := Through(lib, c, s, Row(now));
            Inv(c, t) && t.live && |t.gen.queue| < |s.gen.queue|
  {
    hide Inv, After, Shaped, Bookkeeping.Permits, Bookkeeping.Logs, Causes.Misbehaves;
    assert Can(c, s, Row(now));
    Causes.BlockSteps(lib, c, s, Row(now));
    Bookkeeping.BlockNotes(lib, c, s, Row(now));
    AfterKeeps(lib, c, s, Row(now));
  }

  /** Every frame that is waiting is handled, or dropped with the one that is rejected, each under its own clock. */
  lemma {:induction false} RowsDrain(lib: Library, c: Config, s: Sup, clock: nat -> real, n: nat)
    requires Inv(c, s) && s.live
    ensures var rows := RowBlocks(lib, c, s, clock, n);
            && Replay(lib, c, s, rows).gen.queue == []
            && forall i :: 0 <= i < |rows| ==> rows[i] == Row(clock(n + i))
    decreases |s.gen.queue|
  {
    hide Inv, Through;
    if s.gen.queue != [] {
      var t := Through(lib, c, s, Row(clock(n)));
      RowShortens(lib, c, s, clock(n));
      RowsDrain(lib, c, t, clock, n + 1);
      var rest := RowBlocks(lib, c, t, clock, n + 1);
      ReplayOne(lib, c, s, [], Row(clock(n)));
      ReplayMore(lib, c, s, [Row(clock(n))], rest);
    }
  }

  /** One of these blocks is a frame that asks something of the journal. */
  ghost predicate AskAmong(lib: Library, c: Config, s: Sup, blocks: seq<Block>) {
    exists n :: AsksAt(lib, c, s, blocks, n)
  }

  predicate AsksAt(lib: Library, c: Config, s: Sup, blocks: seq<Block>, n: int) {
    0 <= n < |blocks| && blocks[n].Row? && !Asks(lib, c, Replay(lib, c, s, blocks[..n]), blocks[n]).Nothing?
  }

  /** The round ends the controller, and with this. */
  ghost predicate RoundFails(lib: Library, c: Config, s: Sup, x: Round, e: Fatal) {
    match Meets(c, s, x)
    case Some(f) => e == f
    case None =>
      match e
      case JournalFailed(_) => AskAmong(lib, c, s, RoundBlocks(lib, c, s, x))
      case LauncherLost => x.launcherLost && AfterRound(lib, c, s, x).gen.evidence.None?
      case _ => false
  }

  // ----- one generation -----

  /** Round after round until the generation is over. */
  function UntilOver(lib: Library, c: Config, s: Sup, rounds: seq<Round>): seq<Block> {
    if rounds == [] then [] else
    var bs := UntilOver(lib, c, s, rounds[..|rounds| - 1]);
    var t := Replay(lib, c, s, bs);
    if Over(t.gen) then bs else bs + RoundBlocks(lib, c, t, rounds[|rounds| - 1])
  }

  function AfterRounds(lib: Library, c: Config, s: Sup, rounds: seq<Round>): Sup {
    Replay(lib, c, s, UntilOver(lib, c, s, rounds))
  }

  lemma {:induction false} OverStays(lib: Library, c: Config, s: Sup, rounds: seq<Round>, n: nat)
    requires n <= |rounds| && Over(AfterRounds(lib, c, s, rounds[..n]).gen)
    ensures UntilOver(lib, c, s, rounds) == UntilOver(lib, c, s, rounds[..n])
    decreases |rounds|
  {
    hide Replay, RoundBlocks, Over;
    if n == |rounds| {
      assert rounds[..n] == rounds;
    } else {
      var before := rounds[..|rounds| - 1];
      assert before[..n] == rounds[..n];
      OverStays(lib, c, s, before, n);
    }
  }

  /** Round k is carried out, on what the rounds before it left. */
  predicate CarriesOn(lib: Library, c: Config, s: Sup, rounds: seq<Round>, k: int) {
    && 0 <= k < |rounds|
    && var t := AfterRounds(lib, c, s, rounds[..k]);
    && !(t.gen.evidence.Some? && t.gen.queue == [] && (t.gen.connected ==> t.gen.eof))
    && UntilOver(lib, c, s, rounds[..k + 1]) == UntilOver(lib, c, s, rounds[..k]) + RoundBlocks(lib, c, t, rounds[k])
  }

  /** Rounds are carried out one after another, up to the first n behind which the launcher has reported the end and
      the worker's stream is read to its end, or all of them; and nothing else is. */
  lemma {:induction false} RoundsExactly(lib: Library, c: Config, s: Sup, rounds: seq<Round>) returns (n: nat)
    ensures n <= |rounds| && forall k :: 0 <= k < n ==> CarriesOn(lib, c, s, rounds, k)
    ensures UntilOver(lib, c, s, rounds) == UntilOver(lib, c, s, rounds[..n])
    ensures n < |rounds| ==> var g := AfterRounds(lib, c, s, rounds[..n]).gen;
                             g.evidence.Some? && g.queue == [] && (g.connected ==> g.eof)
  {
    hide Replay, RoundBlocks;
    assert rounds[..|rounds|] == rounds;
    if rounds == [] {
      n := 0;
    } else {
      var last := |rounds| - 1;
      var before := rounds[..last];
      n := RoundsExactly(lib, c, s, before);
      forall k | 0 <= k < n ensures CarriesOn(lib, c, s, rounds, k) {
        assert CarriesOn(lib, c, s, before, k);
        assert before[..k] == rounds[..k] && before[..k + 1] == rounds[..k + 1] && before[k] == rounds[k];
      }
      assert before[..n] == rounds[..n];
      if n == last && !Over(AfterRounds(lib, c, s, before).gen) {
        assert before[..n] == before;
        assert CarriesOn(lib, c, s, rounds, last);
        n := |rounds|;
      }
    }
  }

  predicate Inside(b: Block) { !b.Next? && !b.Leave? }

  lemma RoundWithin(lib: Library, c: Config, s: Sup, x: Round)
    ensures forall b :: b in RoundBlocks(lib, c, s, x) ==> Inside(b)
  {
    hide Replay, RowBlocks, StatusBlocks;
    var look := LookBlocks(s.gen, x);
    StatusMembers(x.status);
    var t := Replay(lib, c, s, look);
    OnlyRows(lib, c, Replay(lib, c, t, ReadBlocks(s.gen.connected, s.gen.eof, x)), x.clock, 0);
  }

  lemma {:induction false} RoundsWithin(lib: Library, c: Config, s: Sup, rounds: seq<Round>)
    ensures forall b :: b in UntilOver(lib, c, s, rounds) ==> Inside(b)
  {
    hide Replay, RoundBlocks, Over;
    if rounds != [] {
      var before := rounds[..|rounds| - 1];
      RoundsWithin(lib, c, s, before);
      RoundWithin(lib, c, Replay(lib, c, s, UntilOver(lib, c, s, before)), rounds[|rounds| - 1]);
    }
  }

  function Begun(c: Config, s: Sup, span: Span): Sup {
    NextGeneration(c, s, span.workerConfig, span.start)
  }

  /** From launch to verdict. */
  function SpanBlocks(lib: Library, c: Config, s: Sup, span: Span): seq<Block> {
    [Next(span.workerConfig, span.start)] + UntilOver(lib, c, Begun(c, s, span), span.rounds) + [Leave]
  }

  /** A generation is launched first and left last, and in between it is neither. */
  lemma SpanExactly(lib: Library, c: Config, s: Sup, span: Span)
    ensures var blocks := SpanBlocks(lib, c, s, span);
            && |blocks| >= 2 && blocks[0] == Next(span.workerConfig, span.start) && blocks[|blocks| - 1] == Leave
            && forall i :: 0 < i < |blocks| - 1 ==> Inside(blocks[i])
  {
    hide UntilOver, Begun, Inside;
    RoundsWithin(lib, c, Begun(c, s, span), span.rounds);
    var rounds := UntilOver(lib, c, Begun(c, s, span), span.rounds);
    assert forall i :: 0 <= i < |rounds| ==> rounds[i] in rounds;
  }

  /** The generation ends the controller, and with this: it runs out of rounds only before it is over. */
  ghost predicate SpanFails(lib: Library, c: Config, s: Sup, span: Span, e: Fatal) {
    if span.buildChanged then e == BuildChanged else
    var t := AfterRounds(lib, c, Begun(c, s, span), span.rounds);
    match e
    case Cut => !Over(t.gen)
    case CleanupUnconfirmed => Over(t.gen) && !t.gen.evidence.value.cleanupConfirmed
    case _ =>
      || (e.JournalFailed? && Over(t.gen) && t.gen.evidence.value.cleanupConfirmed && t.gen.pending.Some?)
      || exists k :: FailsIn(lib, c, Begun(c, s, span), span.rounds, k, e)
  }

  ghost predicate FailsIn(lib: Library, c: Config, s: Sup, rounds: seq<Round>, k: int, e: Fatal) {
    && 0 <= k < |rounds|
    && var t := AfterRounds(lib, c, s, rounds[..k]);
    !Over(t.gen) && RoundFails(lib, c, t, rounds[k], e)
  }

  lemma FailsInSpan(lib: Library, c: Config, s: Sup, span: Span, k: int, e: Fatal)
    requires !span.buildChanged && FailsIn(lib, c, Begun(c, s, span), span.rounds, k, e)
    ensures SpanFails(lib, c, s, span, e)
  {
    hide Replay, UntilOver, Begun, AskAmong, RoundBlocks, Meets;
    var t := AfterRounds(lib, c, Begun(c, s, span), span.rounds[..k]);
    MeetsThese(c, t, span.rounds[k]);
  }

  lemma AfterAll(lib: Library, c: Config, s: Sup, rounds: seq<Round>)
    ensures AfterRounds(lib, c, s, rounds) == Replay(lib, c, s, UntilOver(lib, c, s, rounds))
  {
    hide Replay, UntilOver;
  }

  lemma Changed(lib: Library, c: Config, s: Sup, span: Span)
    requires span.buildChanged
    ensures SpanFails(lib, c, s, span, BuildChanged)
  {
  }

  lemma FallsShort(lib: Library, c: Config, s: Sup, span: Span, t: Sup)
    requires !span.buildChanged && t == AfterRounds(lib, c, Begun(c, s, span), span.rounds)
    ensures !Over(t.gen) ==> SpanFails(lib, c, s, span, Cut)
    ensures Over(t.gen) && !t.gen.evidence.value.cleanupConfirmed ==> SpanFails(lib, c, s, span, CleanupUnconfirmed)
    ensures Over(t.gen) && t.gen.evidence.value.cleanupConfirmed && t.gen.pending.Some? ==>
              forall e: JournalError :: SpanFails(lib, c, s, span, JournalFailed(e))
  {
    hide AfterRounds, Begun, FailsIn;
  }

  lemma MeetsThese(c: Config, s: Sup, x: Round)
    ensures Meets(c, s, x) in {None, Some(TerminationUnconfirmed), Some(PeerUid), Some(LauncherFrame)}
  {
    hide Timers;
  }

  // ----- one campaign -----

  function Generations(lib: Library, c: Config, s: Sup, spans: seq<Span>): seq<Block> {
    if spans == [] then [] else
    var bs := Generations(lib, c, s, spans[..|spans| - 1]);
    bs + SpanBlocks(lib, c, Replay(lib, c, s, bs), spans[|spans| - 1])
  }

  function AfterSpans(lib: Library, c: Config, s: Sup, spans: seq<Span>): Sup {
    Replay(lib, c, s, Generations(lib, c, s, spans))
  }

  /** The campaign ends with this error behind n generations: there is nothing more to meet, or the next one fails. */
  ghost predicate CampaignFails(lib: Library, c: Config, s: Sup, spans: seq<Span>, e: Fatal, n: int) {
    && 0 <= n <= |spans| && n <= c.restartBudget
    && var t := AfterSpans(lib, c, s, spans[..n]);
    && (n > 0 ==> t.generation >= 1 && Decide(c, t) == Again)
    && if n == |spans| then e == Cut else SpanFails(lib, c, t, spans[n], e)
  }

  lemma AskLater(lib: Library, c: Config, s: Sup, a: seq<Block>, b: seq<Block>)
    requires AskAmong(lib, c, Replay(lib, c, s, a), b)
    ensures AskAmong(lib, c, s, a + b)
  {
    hide Replay, Asks;
    var n :| AsksAt(lib, c, Replay(lib, c, s, a), b, n);
    assert (a + b)[..|a| + n] == a + b[..n];
    ReplayMore(lib, c, s, a, b[..n]);
    assert AsksAt(lib, c, s, a + b, |a| + n);
  }

  /** The first of the waiting frames, and the others. */
  lemma RowsNext(lib: Library, c: Config, s: Sup, clock: nat -> real, i: nat)
    requires s.gen.queue != [] && |Through(lib, c, s, Row(clock(i))).gen.queue| < |s.gen.queue|
    ensures RowBlocks(lib, c, s, clock, i)
            == [Row(clock(i))] + RowBlocks(lib, c, Through(lib, c, s, Row(clock(i))), clock, i + 1)
  {
    hide Through;
  }

  lemma NoRows(lib: Library, c: Config, s: Sup, clock: nat -> real, i: nat)
    requires s.gen.queue == []
    ensures RowBlocks(lib, c, s, clock, i) == []
  {
  }

  /** The frame that has come up asks something, so one of all the frames did. */
  lemma AskedByNow(lib: Library, c: Config, s: Sup, read: seq<Block>, clock: nat -> real, b: seq<Block>,
                   done: seq<Block>, t: Sup, blocks: seq<Block>, i: nat)
    requires Came(lib, c, Replay(lib, c, s, read), b, done, t, blocks)
    requires done + RowBlocks(lib, c, t, clock, i) == RowBlocks(lib, c, Replay(lib, c, s, read), clock, 0)
    requires t.gen.queue != [] && !Asks(lib, c, t, Row(clock(i))).Nothing?
    ensures AskAmong(lib, c, s, HearBlocks(lib, c, s, read, clock))
  {
    hide Replay, RowBlocks, AskAmong, Asks;
    RowAsksFirst(lib, c, t, clock, i);
    AskLater(lib, c, Replay(lib, c, s, read), done, RowBlocks(lib, c, t, clock, i));
    AskLater(lib, c, s, read, RowBlocks(lib, c, Replay(lib, c, s, read), clock, 0));
  }

  lemma RowAsksFirst(lib: Library, c: Config, s: Sup, clock: nat -> real, i: nat)
    requires s.gen.queue != [] && !Asks(lib, c, s, Row(clock(i))).Nothing?
    ensures AskAmong(lib, c, s, RowBlocks(lib, c, s, clock, i))
  {
    hide Through, Asks;
    var blocks := RowBlocks(lib, c, s, clock, i);
    assert blocks[..0] == [] && blocks[0] == Row(clock(i));
    assert AsksAt(lib, c, s, blocks, 0);
  }

  lemma TimersKeep(c: Config, s: Sup, now: real)
    ensures Timers(c, s, now).gen.connected == s.gen.connected && Timers(c, s, now).gen.eof == s.gen.eof
  {
    hide Late;
  }

  /** What a round looks at again after its first block. */
  lemma WatchKeeps(lib: Library, c: Config, s: Sup, b: Block)
    requires b.Parent? || b.Pid? || b.End? || b.Connect? || b.Tick?
    ensures var g := Through(lib, c, s, b).gen;
            g.eof == s.gen.eof && (!b.Connect? ==> g.connected == s.gen.connected)
  {
    hide Latest, Late, Decide, OnRow;
  }
}
