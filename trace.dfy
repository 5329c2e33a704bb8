/**
 * `HTTPServer#run` as a trace of the steps it takes on each connection, and
 * the trace of a server's whole life as the runs' traces one after another.
 * The handshake and the plain `run` are foreign calls; whether each returned
 * or raised is part of the record of a run.
 */
module Trace {
  import opened Wrappers
  import opened Ssl

  datatype Event =
    | Wrap(raw: TcpSocket, ssl: Socket)         // SSLSocket.new(sock, @ctx)
    | Accept(ssl: Socket, completed: bool)      // ssl.accept; completed: it returned
    | SetCurrent(sock: Socket)                  // Thread.current[:WEBrickSocket] = ...
    | Delegate(sock: Socket, returned: bool)    // orig_run(...); returned: it did not raise
    | Close(ssl: Socket)                        // ssl.close

  /**
   * One call of `run`: the accepted socket, the shared context when SSL is
   * on (`None` when it is off), and how the two foreign calls ended.
   */
  datatype RunRecord = RunRecord(sock: TcpSocket, secure: Option<SslContext>,
                                 handshakeCompletes: bool, delegateReturns: bool)

  /** The steps one call of `run` takes. There is no `ensure`: a raise skips everything after it. */
  function RunTrace(r: RunRecord): seq<Event> {
    match r.secure
    case None => [Delegate(Plain(r.sock), r.delegateReturns)]
    case Some(ctx) =>
      var ssl := Tls(r.sock, ctx);
      [Wrap(r.sock, ssl), Accept(ssl, r.handshakeCompletes)]
      + if !r.handshakeCompletes then []
        else [SetCurrent(ssl), Delegate(ssl, r.delegateReturns)]
             + if !r.delegateReturns then [] else [SetCurrent(Plain(r.sock)), Close(ssl)]
  }

  /** The steps of a sequence of runs, in order. */
  function Flatten(runs: seq<RunRecord>): seq<Event> {
    if runs == [] then [] else Flatten(runs[..|runs| - 1]) + RunTrace(runs[|runs| - 1])
  }

  /** The number of events of `log` that satisfy `p`. */
  function CountWhere(log: seq<Event>, p: Event -> bool): nat {
    if log == [] then 0 else CountWhere(log[..|log| - 1], p) + (if p(log[|log| - 1]) then 1 else 0)
  }

  /** The number of runs that satisfy `q`. */
  function CountRuns(runs: seq<RunRecord>, q: RunRecord -> bool): nat {
    if runs == [] then 0 else CountRuns(runs[..|runs| - 1], q) + (if q(runs[|runs| - 1]) then 1 else 0)
  }

  predicate IsWrap(e: Event) { e.Wrap? }
  predicate IsClose(e: Event) { e.Close? }
  predicate IsSecure(r: RunRecord) { r.secure.Some? }
  predicate EndsNormally(r: RunRecord) { r.secure.Some? && r.handshakeCompletes && r.delegateReturns }

  lemma {:induction false} CountWhereAppend(a: seq<Event>, b: seq<Event>, p: Event -> bool)
    ensures CountWhere(a + b, p) == CountWhere(a, p) + CountWhere(b, p)
    decreases |b|
  {
    if b == [] {
      assert a + b == a;
    } else {
      var n := |b| - 1;
      assert (a + b)[..|a + b| - 1] == a + b[..n];
      CountWhereAppend(a, b[..n], p);
    }
  }

  /** Adding one run adds its own steps at the end. */
  lemma FlattenSnoc(runs: seq<RunRecord>, r: RunRecord)
    ensures Flatten(runs + [r]) == Flatten(runs) + RunTrace(r)
  {
  }

  /**
   * With SSL off in every run, the plain `run` receives each accepted socket
   * itself, once per run and in order, and nothing is wrapped, accepted or
   * closed.
   */
  lemma {:induction false} PlainRunsPassSocketsThrough(runs: seq<RunRecord>)
    requires forall k :: 0 <= k < |runs| ==> runs[k].secure.None?
    ensures |Flatten(runs)| == |runs|
    ensures forall k :: 0 <= k < |runs| ==> Flatten(runs)[k] == Delegate(Plain(runs[k].sock), runs[k].delegateReturns)
  {
    if runs != [] {
      var n := |runs| - 1;
      PlainRunsPassSocketsThrough(runs[..n]);
    }
  }

  /**
   * Every delegation of an SSL socket comes right after that socket was
   * wrapped around its raw socket, its handshake returned, and it became the
   * current socket.
   */
  lemma {:induction false} HandshakePrecedesDelegation(runs: seq<RunRecord>, i: nat)
    requires i < |Flatten(runs)|
    requires Flatten(runs)[i].Delegate? && Flatten(runs)[i].sock.Tls?
    ensures 3 <= i
    ensures Flatten(runs)[i - 3] == Wrap(Flatten(runs)[i].sock.io, Flatten(runs)[i].sock)
    ensures Flatten(runs)[i - 2] == Accept(Flatten(runs)[i].sock, true)
    ensures Flatten(runs)[i - 1] == SetCurrent(Flatten(runs)[i].sock)
  {
    var n := |runs| - 1;
    var before := Flatten(runs[..n]);
    if i < |before| {
      HandshakePrecedesDelegation(runs[..n], i);
    } else {
      var j := i - |before|;
      assert Flatten(runs)[i] == RunTrace(runs[n])[j];
    }
  }

  /**
   * Every close of an SSL socket comes right after the plain `run` on it
   * returned and the raw socket became the current socket again.
   */
  lemma {:induction false} CloseFollowsNormalReturn(runs: seq<RunRecord>, i: nat)
    requires i < |Flatten(runs)|
    requires Flatten(runs)[i].Close?
    ensures 2 <= i
    ensures Flatten(runs)[i - 2] == Delegate(Flatten(runs)[i].ssl, true)
    ensures Flatten(runs)[i].ssl.Tls?
    ensures Flatten(runs)[i - 1] == SetCurrent(Plain(Flatten(runs)[i].ssl.io))
  {
    var n := |runs| - 1;
    var before := Flatten(runs[..n]);
    if i < |before| {
      CloseFollowsNormalReturn(runs[..n], i);
    } else {
      var j := i - |before|;
      assert Flatten(runs)[i] == RunTrace(runs[n])[j];
    }
  }

  /** One SSL session is opened per run with SSL on. */
  lemma {:induction false} SessionsOpened(runs: seq<RunRecord>)
    ensures CountWhere(Flatten(runs), IsWrap) == CountRuns(runs, IsSecure)
  {
    if runs != [] {
      var n := |runs| - 1;
      SessionsOpened(runs[..n]);
      CountWhereAppend(Flatten(runs[..n]), RunTrace(runs[n]), IsWrap);
      var t := RunTrace(runs[n]);
      assert CountWhere(t, IsWrap) == if IsSecure(runs[n]) then 1 else 0 by {
        if runs[n].secure.Some? {
          CountWhereAppend([t[0]], t[1..], IsWrap);
          assert [t[0]] + t[1..] == t;
          NoWrapAfterFirst(runs[n]);
        }
      }
    }
  }

  lemma NoWrapAfterFirst(r: RunRecord)
    requires r.secure.Some?
    ensures CountWhere([RunTrace(r)[0]], IsWrap) == 1
    ensures CountWhere(RunTrace(r)[1..], IsWrap) == 0
  {
    var t := RunTrace(r)[1..];
    assert [RunTrace(r)[0]][..0] == [];
    NoneCounted(t, IsWrap);
  }

  lemma {:induction false} NoneCounted(log: seq<Event>, p: Event -> bool)
    requires forall k :: 0 <= k < |log| ==> !p(log[k])
    ensures CountWhere(log, p) == 0
  {
    if log != [] {
      NoneCounted(log[..|log| - 1], p);
    }
  }

  /**
   * An SSL session is closed exactly in the runs where both the handshake
   * and the plain `run` returned: a raise in either leaves it open.
   */
  lemma {:induction false} SessionsClosed(runs: seq<RunRecord>)
    ensures CountWhere(Flatten(runs), IsClose) == CountRuns(runs, EndsNormally)
  {
    if runs != [] {
      var n := |runs| - 1;
      SessionsClosed(runs[..n]);
      CountWhereAppend(Flatten(runs[..n]), RunTrace(runs[n]), IsClose);
      var t := RunTrace(runs[n]);
      if EndsNormally(runs[n]) {
        var m := |t| - 1;
        assert t[..m][..|t[..m]| - 1] == t[..m - 1];
        NoneCounted(t[..m], IsClose);
      } else {
        NoneCounted(t, IsClose);
      }
    }
  }
}
