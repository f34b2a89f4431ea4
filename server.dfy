/**
 * The connection server of p11-kit (p11-kit/server.c): listens on a unix socket, checks each
 * peer's uid and gid, forks a `p11-kit remote` child per admitted connection, reaps children
 * and exits on a termination signal or, with no live child, on an idle timeout.
 *
 * The operating system is outside this model. Each blocking wait is one `Iteration` of a
 * script: what pselect returned, which signal handlers ran while it waited, how many exited
 * children waitpid reports at the next reap, and what accepting the connection produced.
 */
module Server {
  import opened Wrappers

  /** An id argument of -1 means "any". */
  const AnyId: int := -1

  /** STDERR_FILENO + 1: the first descriptor the child does not keep across exec. */
  const ChildMaxFd: int := 3

  /** One return of pselect. */
  datatype Wakeup =
    | Interrupted(sigchld: bool, sigterm: bool)  // -1 with EINTR; which handlers ran
    | TimedOut                                   // 0
    | Readable                                   // 1: the listening socket is readable
    | Failed(readable: bool)                     // -1 otherwise; whether rd_set still names the socket

  /** The outcome of fork for an admitted peer, as seen by the parent. */
  datatype ForkOutcome = ForkFailed | Forked

  /** What accepting on the readable socket produced. */
  datatype Connection =
    | AcceptFailed
    | NoCredentials                                     // p11_get_upeer_id failed
    | Peer(uid: int, gid: int, fork: ForkOutcome)

  /** One round of the accept loop's environment. */
  datatype Iteration = Iteration(reaped: nat, wakeup: Wakeup, conn: Connection)

  /** What the parent did with one accepted connection. */
  datatype Handled =
    | AcceptError    // no descriptor was obtained
    | Unidentified   // the peer's credentials could not be read; closed
    | Refused        // uid or gid mismatch; closed
    | ForkError      // fork failed; the descriptor is left open
    | Spawned        // a child was forked; the parent closed its copy

  /** Whether the parent closes the connection's descriptor. */
  predicate ClosesFd(h: Handled) {
    h == Unidentified || h == Refused || h == Spawned
  }

  /** Whether a peer passes the id checks. */
  predicate Admits(uid: int, gid: int, peerUid: int, peerGid: int) {
    !(uid != AnyId && uid != peerUid) && !(gid != AnyId && gid != peerGid)
  }

  /** The branch of the loop body that handles a connection. */
  function Classify(uid: int, gid: int, conn: Connection): (h: Handled)
    ensures h == Refused <==>
      conn.Peer? && ((uid != AnyId && uid != conn.uid) || (gid != AnyId && gid != conn.gid))
    ensures h == Spawned <==>
      conn.Peer? && (uid == AnyId || uid == conn.uid) && (gid == AnyId || gid == conn.gid)
        && conn.fork.Forked?
    ensures h == Unidentified <==> conn.NoCredentials?
    ensures ClosesFd(h) <==> !conn.AcceptFailed? && !(conn.Peer? && h == ForkError)
  {
    match conn
    case AcceptFailed => AcceptError
    case NoCredentials => Unidentified
    case Peer(peerUid, peerGid, fork) =>
      if !Admits(uid, gid, peerUid, peerGid) then Refused
      else if fork == ForkFailed then ForkError
      else Spawned
  }

  /** children_avail after waitpid reported `reaped` exited children: one less per child,
      never below zero. */
  function Reap(avail: nat, reaped: nat): (r: nat)
    ensures r == if reaped <= avail then avail - reaped else 0
  {
    if reaped == 0 then avail
    else Reap(if avail > 0 then avail - 1 else 0, reaped - 1)
  }

  /** The value pselect returns. */
  function WaitRet(w: Wakeup): int {
    match w
    case Interrupted(_, _) => -1
    case TimedOut => 0
    case Readable => 1
    case Failed(_) => -1
  }

  /** Whether FD_ISSET reports the listening socket after the wait. */
  predicate SocketSet(w: Wakeup) {
    w.Readable? || (w.Failed? && w.readable)
  }

  /** The loop's variables: the three globals, `ret`, and the connections handled so far. */
  datatype LoopState = LoopState(
    needChildrenCleanup: bool,
    terminate: bool,
    childrenAvail: nat,
    ret: int,
    handled: seq<Handled>)

  datatype Step = Continue | Break

  /** One pass of the `for (;;)` body of loop. */
  function Next(uid: int, gid: int, st: LoopState, it: Iteration): (LoopState, Step) {
    var avail := if st.needChildrenCleanup then Reap(st.childrenAvail, it.reaped) else st.childrenAvail;
    var reaped := st.(needChildrenCleanup := false, childrenAvail := avail);
    if st.terminate then (reaped, Break)
    else
      var waited := reaped.(
        ret := WaitRet(it.wakeup),
        needChildrenCleanup := it.wakeup.Interrupted? && it.wakeup.sigchld,
        terminate := it.wakeup.Interrupted? && it.wakeup.sigterm);
      if it.wakeup.Interrupted? then (waited, Continue)
      else if WaitRet(it.wakeup) == 0 && avail == 0 then (waited, Break)
      else if SocketSet(it.wakeup) then
        var h := Classify(uid, gid, it.conn);
        (waited.(handled := waited.handled + [h],
                 childrenAvail := if h == Spawned then avail + 1 else avail), Continue)
      else (waited, Continue)
  }

  /** The state of the loop after the script, and whether and with what value it returned. */
  datatype RunResult = RunResult(st: LoopState, exited: bool, steps: nat)

  function Run(uid: int, gid: int, st: LoopState, script: seq<Iteration>): (r: RunResult)
    ensures r.steps <= |script|
    decreases |script|
  {
    if script == [] then RunResult(st, false, 0)
    else
      var (st', step) := Next(uid, gid, st, script[0]);
      if step == Break then RunResult(st', true, 1)
      else
        var rest := Run(uid, gid, st', script[1..]);
        rest.(steps := rest.steps + 1)
  }

  /** The loop leaves through the timeout exactly when the wait timed out and, after the reap
      step, no child is live; a timeout with live children keeps looping. */
  lemma TimeoutExit(uid: int, gid: int, st: LoopState, it: Iteration)
    requires !st.terminate && it.wakeup == TimedOut
    ensures var (st', step) := Next(uid, gid, st, it);
      && (step == Break <==> st'.childrenAvail == 0)
      && st'.ret == 0
      && st'.handled == st.handled
  {
  }

  /** A pending termination ends the loop at the top of the next pass, after the reap step and
      before any wait or accept. */
  lemma TerminateEndsLoop(uid: int, gid: int, st: LoopState, it: Iteration)
    requires st.terminate
    ensures var (st', step) := Next(uid, gid, st, it);
      && step == Break
      && st'.ret == st.ret && st'.handled == st.handled && !st'.needChildrenCleanup
      && st'.childrenAvail == if st.needChildrenCleanup then Reap(st.childrenAvail, it.reaped) else st.childrenAvail
  {
  }

  /** An interrupted wait restarts the loop, only recording which handlers ran. */
  lemma InterruptedWaitRestarts(uid: int, gid: int, st: LoopState, it: Iteration)
    requires !st.terminate && it.wakeup.Interrupted?
    ensures var (st', step) := Next(uid, gid, st, it);
      && step == Continue && st'.handled == st.handled && st'.ret == -1
      && st'.needChildrenCleanup == it.wakeup.sigchld && st'.terminate == it.wakeup.sigterm
  {
  }

  /** A handled connection changes children_avail only when a child was forked, and then by
      exactly one; a refused peer, a peer without credentials or a failed fork leave it as the
      reap step left it. */
  lemma ConnectionAccounting(uid: int, gid: int, st: LoopState, it: Iteration)
    requires !st.terminate && SocketSet(it.wakeup)
    requires !(WaitRet(it.wakeup) == 0)
    ensures var (st', step) := Next(uid, gid, st, it);
      var avail := if st.needChildrenCleanup then Reap(st.childrenAvail, it.reaped) else st.childrenAvail;
      && step == Continue
      && st'.handled == st.handled + [Classify(uid, gid, it.conn)]
      && st'.childrenAvail == (if Classify(uid, gid, it.conn) == Spawned then avail + 1 else avail)
  {
  }

  /** A termination signal that interrupts a wait makes the loop return -1 on the next pass:
      `ret` still holds the interrupted pselect's value. */
  lemma SigtermReturnsMinusOne(uid: int, gid: int, st: LoopState, it1: Iteration, it2: Iteration)
    requires !st.terminate && it1.wakeup.Interrupted? && it1.wakeup.sigterm
    ensures var (st1, step1) := Next(uid, gid, st, it1);
      var (st2, step2) := Next(uid, gid, st1, it2);
      step1 == Continue && step2 == Break && st2.ret == -1
  {
  }

  /** Once the loop has returned, later script entries are not consumed: extending the script
      of a run that exited changes neither its state, its return nor its number of passes. */
  lemma {:induction false} RunStopsAtBreak(uid: int, gid: int, st: LoopState, script: seq<Iteration>,
                                           more: seq<Iteration>)
    requires Run(uid, gid, st, script).exited
    ensures Run(uid, gid, st, script + more) == Run(uid, gid, st, script)
    decreases |script|
  {
    assert (script + more)[0] == script[0];
    var (st', step) := Next(uid, gid, st, script[0]);
    if step == Continue {
      assert (script + more)[1..] == script[1..] + more;
      RunStopsAtBreak(uid, gid, st', script[1..], more);
    }
  }

  /** set_cloexec_on_fd: mark fd close-on-exec iff it is at or above max_fd; the walk goes on
      (0 is returned). */
  function SetCloexecOnFd(fd: int, maxFd: int): (bool, int) {
    (fd >= maxFd, 0)
  }

  /** The child's fdwalk over its open descriptors: the descriptors marked close-on-exec. */
  method MarkCloexec(fds: seq<int>, maxFd: int) returns (marked: set<int>)
    ensures forall fd :: fd in marked <==> fd in fds && fd >= maxFd
  {
    marked := {};
    var i := 0;
    while i < |fds|
      invariant 0 <= i <= |fds|
      invariant forall fd :: fd in marked <==> fd in fds[..i] && fd >= maxFd
    {
      var (mark, _) := SetCloexecOnFd(fds[i], maxFd);
      if mark {
        marked := marked + {fds[i]};
      }
      assert fds[..i + 1] == fds[..i] + [fds[i]];
      i := i + 1;
    }
  }

  /** In the child, with max_fd = STDERR_FILENO + 1, exactly stdin, stdout and stderr stay
      open across the exec of `p11-kit remote`. */
  method ChildDescriptors(fds: seq<int>) returns (marked: set<int>)
    requires forall i :: 0 <= i < |fds| ==> fds[i] >= 0
    ensures forall fd :: fd in fds ==> (fd in marked <==> fd !in {0, 1, 2})
  {
    marked := MarkCloexec(fds, ChildMaxFd);
  }

  /** How the set-up part of loop ends. */
  datatype SetupResult =
    | Listening    // the accept loop starts
    | ParentExit   // the daemonising parent calls _exit(0)
    | Exit(code: int)

  /** The outcome of the daemonising fork. */
  datatype DaemonFork = DaemonForkFailed | InChild | InParent

  /** What the system calls of the set-up part return. */
  datatype SetupEnv = SetupEnv(
    socketOk: bool, bindOk: bool, chownOk: bool, fork: DaemonFork, setsidOk: bool,
    listenOk: bool, sigtermBeforeLoop: bool)

  /** The socket was created, bound and, when both ids are given, handed to them. */
  predicate SocketReady(env: SetupEnv, uid: int, gid: int) {
    env.socketOk && env.bindOk && (uid != AnyId && gid != AnyId ==> env.chownOk)
  }

  /** Every step of the set-up succeeds and this process is the one that serves. */
  predicate SetupListens(env: SetupEnv, uid: int, gid: int, foreground: bool) {
    && SocketReady(env, uid, gid)
    && (foreground || (env.fork == InChild && env.setsidOk))
    && env.listenOk
  }

  /** How loop ends: in its set-up part, by returning from the accept loop, or not within the
      script. */
  datatype LoopOutcome = SetupEnded(result: SetupResult) | Returned(ret: int) | StillServing

  /** The state the accept loop starts in. */
  function InitialLoopState(env: SetupEnv): LoopState {
    LoopState(false, env.sigtermBeforeLoop, 0, 0, [])
  }

  /** A termination signal that arrives during set-up ends the loop at its first pass, which
      then returns 0. */
  lemma {:induction false} EarlySigtermReturnsZero(uid: int, gid: int, env: SetupEnv, script: seq<Iteration>)
    requires env.sigtermBeforeLoop && script != []
    ensures var r := Run(uid, gid, InitialLoopState(env), script);
      r.exited && r.steps == 1 && r.st.ret == 0 && r.st.handled == []
  {
    TerminateEndsLoop(uid, gid, InitialLoopState(env), script[0]);
  }

  /** The server process around loop: the globals, `ret`, the socket path on disk and the
      connections handled. */
  class Daemon {
    const uid: int
    const gid: int
    const foreground: bool
    var needChildrenCleanup: bool
    var terminate: bool
    var childrenAvail: nat
    var ret: int
    var handled: seq<Handled>
    var socketPresent: bool
    var chowned: bool

    function State(): LoopState
      reads this
    {
      LoopState(needChildrenCleanup, terminate, childrenAvail, ret, handled)
    }

    /** The process before loop: the globals' static initial values. The socket path may be
        left over from an earlier run. */
    constructor (uid: int, gid: int, foreground: bool, staleSocket: bool)
      ensures this.uid == uid && this.gid == gid && this.foreground == foreground
      ensures State() == LoopState(false, false, 0, 1, [])
      ensures socketPresent == staleSocket && !chowned
    {
      this.uid, this.gid, this.foreground := uid, gid, foreground;
      needChildrenCleanup, terminate, childrenAvail := false, false, 0;
      ret, handled := 1, [];
      socketPresent, chowned := staleSocket, false;
    }

    /** handle_children, the SIGCHLD handler. */
    method HandleChildren()
      modifies this`needChildrenCleanup
      ensures needChildrenCleanup
    {
      needChildrenCleanup := true;
    }

    /** handle_term, the SIGTERM and SIGINT handler. */
    method HandleTerm()
      modifies this`terminate
      ensures terminate
    {
      terminate := true;
    }

    /** cleanup_children: `reaped` is how many times waitpid reports an exited child before it
        reports none. */
    method CleanupChildren(reaped: nat)
      modifies this`childrenAvail, this`needChildrenCleanup
      ensures childrenAvail == Reap(old(childrenAvail), reaped) && !needChildrenCleanup
    {
      var n := 0;
      while n < reaped
        invariant n <= reaped
        invariant Reap(childrenAvail, reaped - n) == Reap(old(childrenAvail), reaped)
      {
        if childrenAvail > 0 {
          childrenAvail := childrenAvail - 1;
        }
        n := n + 1;
      }
      needChildrenCleanup := false;
    }

    /** The part of loop before the accept loop. The socket path is removed first and created
        by bind; it is left behind when a later step fails. */
    method Setup(env: SetupEnv) returns (r: SetupResult)
      requires State() == LoopState(false, false, 0, 1, []) && !chowned
      modifies this`socketPresent, this`chowned, this`ret, this`terminate
      ensures r.Exit? ==> r.code == 1 && ret == 1
      ensures socketPresent <==> env.socketOk && env.bindOk
      ensures chowned <==> env.socketOk && env.bindOk && uid != AnyId && gid != AnyId && env.chownOk
      ensures r == ParentExit <==> SocketReady(env, uid, gid) && !foreground && env.fork == InParent
      ensures r == Listening <==> SetupListens(env, uid, gid, foreground)
      ensures r == Listening ==> State() == LoopState(false, env.sigtermBeforeLoop, 0, 0, [])
    {
      socketPresent := false;
      if !env.socketOk {
        return Exit(1);
      }
      if !env.bindOk {
        return Exit(1);
      }
      socketPresent := true;
      if uid != AnyId && gid != AnyId {
        if !env.chownOk {
          return Exit(1);
        }
        chowned := true;
      }
      if !foreground {
        match env.fork
        case DaemonForkFailed => return Exit(1);
        case InParent => return ParentExit;
        case InChild =>
          if !env.setsidOk {
            return Exit(1);
          }
      }
      if !env.listenOk {
        return Exit(1);
      }
      if env.sigtermBeforeLoop {
        HandleTerm();
      }
      ret := 0;
      r := Listening;
    }

    /** The branch for a readable listening socket. */
    method HandleConnection(conn: Connection)
      modifies this`handled, this`childrenAvail
      ensures handled == old(handled) + [Classify(uid, gid, conn)]
      ensures childrenAvail == old(childrenAvail) + (if Classify(uid, gid, conn) == Spawned then 1 else 0)
    {
      match conn
      case AcceptFailed =>
        handled := handled + [AcceptError];
      case NoCredentials =>
        handled := handled + [Unidentified];
      case Peer(peerUid, peerGid, fork) =>
        if uid != AnyId && uid != peerUid {
          handled := handled + [Refused];
          return;
        }
        if gid != AnyId && gid != peerGid {
          handled := handled + [Refused];
          return;
        }
        match fork
        case ForkFailed =>
          handled := handled + [ForkError];
        case Forked =>
          childrenAvail := childrenAvail + 1;
          handled := handled + [Spawned];
    }

    /** One pass of the accept loop's body. The signal handlers run only inside the wait. */
    method Iterate(it: Iteration) returns (step: Step)
      modifies this`needChildrenCleanup, this`terminate, this`childrenAvail, this`ret, this`handled
      ensures (State(), step) == Next(uid, gid, old(State()), it)
    {
      if needChildrenCleanup {
        CleanupChildren(it.reaped);
      }
      if terminate {
        return Break;
      }
      match it.wakeup {
        case Interrupted(sigchld, sigterm) =>
          if sigchld { HandleChildren(); }
          if sigterm { HandleTerm(); }
        case _ =>
      }
      ret := WaitRet(it.wakeup);
      if ret == -1 && it.wakeup.Interrupted? {
        return Continue;
      }
      if ret == 0 && childrenAvail == 0 {
        return Break;
      }
      if SocketSet(it.wakeup) {
        HandleConnection(it.conn);
      }
      step := Continue;
    }

    /** loop: the set-up part, then the accept loop over the script. */
    method Loop(env: SetupEnv, script: seq<Iteration>) returns (out: LoopOutcome)
      requires State() == LoopState(false, false, 0, 1, []) && !chowned
      modifies this`needChildrenCleanup, this`terminate, this`childrenAvail, this`ret, this`handled,
        this`socketPresent, this`chowned
      ensures out.SetupEnded? <==> !SetupListens(env, uid, gid, foreground)
      ensures out.SetupEnded? ==> out.result != Listening
      ensures out.SetupEnded? ==>
        (out.result == ParentExit <==> SocketReady(env, uid, gid) && !foreground && env.fork == InParent)
      ensures out.SetupEnded? && out.result.Exit? ==> out.result.code == 1
      ensures out.Returned? <==>
        SetupListens(env, uid, gid, foreground) && Run(uid, gid, InitialLoopState(env), script).exited
      ensures out.Returned? ==>
        out.ret == Run(uid, gid, InitialLoopState(env), script).st.ret && !socketPresent
    {
      var r := Setup(env);
      if r != Listening {
        return SetupEnded(r);
      }
      var exited := Serve(script);
      out := if exited then Returned(ret) else StillServing;
    }

    /** The accept loop over a script of rounds; when it breaks the socket path is removed and
        `ret` is the value loop returns. */
    method Serve(script: seq<Iteration>) returns (exited: bool)
      modifies this`needChildrenCleanup, this`terminate, this`childrenAvail, this`ret, this`handled,
        this`socketPresent
      ensures var r := Run(uid, gid, old(State()), script);
        State() == r.st && exited == r.exited
      ensures exited ==> !socketPresent
      ensures !exited ==> socketPresent == old(socketPresent)
    {
      var i := 0;
      while i < |script|
        invariant 0 <= i <= |script|
        invariant socketPresent == old(socketPresent)
        invariant Run(uid, gid, State(), script[i..]).st == Run(uid, gid, old(State()), script).st
        invariant Run(uid, gid, State(), script[i..]).exited == Run(uid, gid, old(State()), script).exited
      {
        assert script[i..][1..] == script[i + 1..];
        var step := Iterate(script[i]);
        if step == Break {
          socketPresent := false;
          return true;
        }
        i := i + 1;
      }
      exited := false;
    }
  }
}
