/** The UltraGrid helper: REST calls to the far-end UltraGrid GUI that
    check, start and reconfigure a transmission, and the probe that walks a
    fixed priority list of transmission commands until one runs.

    Each REST call is answered by `far`, an oracle that sees every request
    issued so far and the new one, and replies with a connection failure or
    a parsed JSON object. */
module UltraGrid {
  import opened Json

  /** The transmission commands, most preferred first. */
  const PriorityList: seq<string> := [
    "uv -t decklink:0:8 -c libavcodec:codec=H.264 --rtsp-server",
    "uv -t decklink:0:9 -c libavcodec:codec=H.264 --rtsp-server",
    "uv -t v4l2:fmt=YUYV:size=640x480 -c libavcodec:codec=H.264 --rtsp-server",
    "uv -t testcard:1920:1080:20:UYVY -c libavcodec:codec=H.264 --rtsp-server",
    "uv -t testcard:640:480:15:UYVY -c libavcodec:codec=H.264 --rtsp-server"]

  /** The host used when the caller gives an empty address. */
  const LocalHost: string := "127.0.0.1"

  /** The command of the preliminary reachability check, before the port. */
  const PrelimPrefix: string := "uv -t testcard:640:480:15:UYVY -c libavcodec:codec=H.264 -P"

  /** The REST calls, one per endpoint of `http://host/ultragrid/gui/`. */
  datatype Request =
    | Check(host: string, cmd: string)          // POST check, mode=local, cmd
    | RunCmd(host: string, cmd: string)         // POST run_uv_cmd, cmd
    | SetControlPort(host: string, port: string) // POST set_controlport, port
    | GetState(host: string)                    // GET state
    | SetVbcc(host: string, mode: string)       // POST set_vbcc, mode
    | SetSize(host: string, value: string)      // POST set_size, value

  /** A call either fails (no connection, an error status: the call raises)
      or returns a body that parses as a JSON object. */
  datatype Answer = ConnError | Reply(body: Hash)

  /** The far end: the answer to a request, given every earlier request. */
  type Far = (seq<Request>, Request) -> Answer

  predicate CheckedLocal(a: Answer) {
    a.Reply? && Truthy(Field(a.body, "checked_local"))
  }

  predicate Running(a: Answer) {
    a.Reply? && Truthy(Field(a.body, "uv_running"))
  }

  /** What the probe's state holds: the requests issued so far and the
      last stored response (`@hash_response`, nil until first set). */
  datatype Snapshot = Snapshot(sent: seq<Request>, stored: Option<Hash>)

  /** The fixed inputs of one probe: the far-end host (already defaulted),
      the mixer's port, the UltraGrid control port and the mixer's address. */
  datatype Probe = Probe(host: string, port: string, cport: string, ipMixer: string)

  /** How the candidate loop ends: by `return false` on a failed check, or
      normally (by `break` or by running out of candidates). */
  datatype Exit = Aborted | Finished

  // ----- command strings -----

  function DefaultHost(ip: string): (host: string)
    ensures host != ""
    ensures ip == "" ==> host == LocalHost
    ensures ip != "" ==> host == ip
  {
    if ip == "" then LocalHost else ip
  }

  /** The preliminary check's command: the fixed testcard command with the
      mixer's port appended. */
  function PrelimCmd(port: string): (s: string)
    ensures |s| == |PrelimPrefix| + |port|
    ensures s[..|PrelimPrefix|] == PrelimPrefix && s[|PrelimPrefix|..] == port
  {
    PrelimPrefix + port
  }

  /** `"#{cmd} --control-port #{cport} #{ip_mixer} -P#{port}"`: the entry,
      then the control port, the mixer's address and, last, the port. */
  function ReplyCmd(cmd: string, p: Probe): (s: string)
    ensures |s| == |cmd| + 16 + |p.cport| + 1 + |p.ipMixer| + 3 + |p.port|
    ensures s[..|cmd|] == cmd
    ensures s[|cmd|..|cmd| + 16] == " --control-port "
    ensures s[|cmd| + 16..|cmd| + 16 + |p.cport|] == p.cport
    ensures s[|cmd| + 16 + |p.cport|] == ' '
    ensures s[|cmd| + 17 + |p.cport|..|s| - |p.port| - 3] == p.ipMixer
    ensures s[|s| - |p.port| - 3..] == " -P" + p.port
  {
    cmd + " --control-port " + p.cport + " " + p.ipMixer + " -P" + p.port
  }

  /** The candidate string determines the priority entry it was built
      from: distinct entries give distinct commands. */
  lemma ReplyCmdInjective(c1: string, c2: string, p: Probe)
    requires ReplyCmd(c1, p) == ReplyCmd(c2, p)
    ensures c1 == c2
  {
    var s := ReplyCmd(c1, p);
    assert |c1| == |c2|;
    assert c1 == s[..|c1|] == c2;
  }

  /** The candidate commands, in priority order. */
  function Candidates(cmds: seq<string>, p: Probe): (cs: seq<string>)
    ensures |cs| == |cmds|
    ensures forall i :: 0 <= i < |cmds| ==> cs[i] == ReplyCmd(cmds[i], p)
  {
    if cmds == [] then [] else [ReplyCmd(cmds[0], p)] + Candidates(cmds[1..], p)
  }

  /** The five entries of the priority list give five different candidate
      commands, so the probe never checks the same command twice. */
  lemma PriorityCandidatesDistinct(p: Probe)
    ensures |PriorityList| == 5
    ensures var cs := Candidates(PriorityList, p);
            forall i, j :: 0 <= i < j < |cs| ==> cs[i] != cs[j]
  {
    var cs := Candidates(PriorityList, p);
    forall i, j | 0 <= i < j < |cs| ensures cs[i] != cs[j] {
      if cs[i] == cs[j] {
        ReplyCmdInjective(PriorityList[i], PriorityList[j], p);
        EntriesDistinct(i, j);
      }
    }
  }

  /** The priority list names no command twice. */
  lemma EntriesDistinct(i: nat, j: nat)
    requires i < j < |PriorityList|
    ensures PriorityList[i] != PriorityList[j]
  {
    var l := PriorityList;
    assert |l[0]| == |l[1]| == 58 && |l[2]| == 72 && |l[3]| == 72 && |l[4]| == 70;
    assert l[0][17] == '8' && l[1][17] == '9';
  }

  // ----- the REST steps as functions of the probe's state -----

  /** `uv_run(ip, cmd)`. */
  function UvRunSpec(host: string, cmd: string, far: Far, st: Snapshot): (r: (bool, Snapshot))
    ensures r.1.sent == st.sent + [RunCmd(host, cmd)]
    ensures r.0 <==> Running(far(st.sent, RunCmd(host, cmd)))
    ensures far(st.sent, RunCmd(host, cmd)).ConnError? ==> r.1.stored == st.stored
    ensures far(st.sent, RunCmd(host, cmd)).Reply? ==> r.1.stored == Some(far(st.sent, RunCmd(host, cmd)).body)
  {
    var st1 := st.(sent := st.sent + [RunCmd(host, cmd)]);
    match far(st.sent, RunCmd(host, cmd))
    case ConnError => (false, st1)
    case Reply(body) => (Truthy(Field(body, "uv_running")), st1.(stored := Some(body)))
  }

  /** What one pass of the `each` body decides: `return false`, `break`,
      or go on with the next candidate. */
  datatype Step = Abort | Break | Next

  /** One pass of the `each` body of `uv_check_and_tx` for priority entry
      `cmd`: check the candidate, store the parsed answer, and run the
      candidate when the far end reports `checked_local`. */
  function Attempt(p: Probe, cmd: string, far: Far, st: Snapshot): (r: (Step, Snapshot))
    ensures var check := Check(p.host, ReplyCmd(cmd, p));
            && (r.0 == Abort <==> far(st.sent, check).ConnError?)
            && (r.1.sent == st.sent + [check] ||
                r.1.sent == st.sent + [check, RunCmd(p.host, ReplyCmd(cmd, p))])
            && (|r.1.sent| == |st.sent| + 2 <==> CheckedLocal(far(st.sent, check)))
  {
    var c := ReplyCmd(cmd, p);
    var st1 := st.(sent := st.sent + [Check(p.host, c)]);
    match far(st.sent, Check(p.host, c))
    case ConnError => (Abort, st1)
    case Reply(body) =>
      var st2 := st1.(stored := Some(body));
      if Truthy(Field(body, "checked_local")) then
        var run := UvRunSpec(p.host, c, far, st2);
        (if run.0 then Break else Next, run.1)
      else
        (Next, st2)
  }

  /** What one pass leaves in `@hash_response`, and when it breaks: the
      answer to its last answered request is stored, and it breaks exactly
      when it ran the candidate and the run reported `uv_running`. */
  lemma AttemptOutcome(p: Probe, cmd: string, far: Far, st: Snapshot)
    ensures var r := Attempt(p, cmd, far, st);
            var check := Check(p.host, ReplyCmd(cmd, p));
            var run := RunCmd(p.host, ReplyCmd(cmd, p));
            && (r.0 == Break <==> CheckedLocal(far(st.sent, check)) && Running(far(st.sent + [check], run)))
            && r.1.stored == LastStored(far, r.1.sent, |st.sent|, st.stored)
            && (r.1.stored.Some? <==> r.0 != Abort || st.stored.Some?)
  {
    var r := Attempt(p, cmd, far, st);
    var t := r.1.sent;
    var n := |st.sent|;
    assert t[..n] == st.sent;
    if |t| == n + 2 {
      assert t[..n + 1][..n] == st.sent;
    }
  }

  /** The `each` loop of `uv_check_and_tx`, over the entries still to try. */
  function TryCandidates(p: Probe, cmds: seq<string>, far: Far, st: Snapshot): (r: (Exit, Snapshot))
    ensures st.sent <= r.1.sent
    ensures r.0 == Finished && (cmds != [] || st.stored.Some?) ==> r.1.stored.Some?
    decreases |cmds|
  {
    if cmds == [] then (Finished, st)
    else
      var step := Attempt(p, cmds[0], far, st);
      match step.0
      case Abort => (Aborted, step.1)
      case Break => (Finished, step.1)
      case Next => TryCandidates(p, cmds[1..], far, step.1)
  }

  /** `uv_check_and_tx(ip, port, cport)`, with the mixer's own address
      `ipMixer` given and the priority list `cmds` (the helper always
      passes `PriorityList`; everything proved below holds for any
      non-empty list). */
  function CheckAndTx(ip: string, port: string, cport: string, ipMixer: string, cmds: seq<string>,
                      far: Far, st: Snapshot): (r: (bool, Snapshot))
    requires cmds != []
    ensures var pre := Check(DefaultHost(ip), PrelimCmd(port));
            && st.sent <= r.1.sent && |r.1.sent| > |st.sent| && r.1.sent[|st.sent|] == pre
            && (far(st.sent, pre).ConnError? ==> r == (false, Snapshot(st.sent + [pre], st.stored)))
  {
    var p := Probe(DefaultHost(ip), port, cport, ipMixer);
    var st1 := st.(sent := st.sent + [Check(p.host, PrelimCmd(port))]);
    if far(st.sent, Check(p.host, PrelimCmd(port))).ConnError? then (false, st1)
    else
      var loop := TryCandidates(p, cmds, far, st1);
      if loop.0 == Aborted then (false, loop.1)
      else (Truthy(Field(loop.1.stored.value, "uv_running")), loop.1)
  }

  // ----- reading the trace -----

  /** The answer the far end gave to the `j`-th request of trace `t`. */
  function AnswerAt(far: Far, t: seq<Request>, j: nat): Answer
    requires j < |t|
  {
    far(t[..j], t[j])
  }

  /** The command a request checks, if it is a check. */
  function Checked(r: Request): seq<string> {
    if r.Check? then [r.cmd] else []
  }

  /** The commands checked in `t`, in order. */
  function Checks(t: seq<Request>): seq<string> {
    if t == [] then [] else Checked(t[0]) + Checks(t[1..])
  }

  lemma {:induction false} ChecksAppend(a: seq<Request>, b: seq<Request>)
    ensures Checks(a + b) == Checks(a) + Checks(b)
    decreases |a|
  {
    if a == [] {
      assert a + b == b;
    } else {
      var ab := a + b;
      assert ab[0] == a[0];
      assert ab[1..] == a[1..] + b;
      ChecksAppend(a[1..], b);
      calc {
        Checks(ab);
        Checked(a[0]) + Checks(a[1..] + b);
        Checked(a[0]) + (Checks(a[1..]) + Checks(b));
        (Checked(a[0]) + Checks(a[1..])) + Checks(b);
      }
    }
  }

  /** The response `@hash_response` holds after the requests of `t` from
      position `n` on: the body of the last one that was answered, or
      `before` when none was. */
  function LastStored(far: Far, t: seq<Request>, n: nat, before: Option<Hash>): Option<Hash>
    decreases |t|
  {
    if |t| <= n then before
    else
      var j := |t| - 1;
      var a := far(t[..j], t[j]);
      if a.Reply? then Some(a.body) else LastStored(far, t[..j], n, before)
  }

  // ----- properties of the candidate loop -----

  /** One unfolding of the loop: how it goes on after the first pass. */
  lemma TryUnfold(p: Probe, cmds: seq<string>, far: Far, st: Snapshot)
    requires cmds != []
    ensures var r1 := Attempt(p, cmds[0], far, st);
            var r := TryCandidates(p, cmds, far, st);
            && (r1.0 == Abort ==> r == (Aborted, r1.1))
            && (r1.0 == Break ==> r == (Finished, r1.1))
            && (r1.0 == Next ==> r == TryCandidates(p, cmds[1..], far, r1.1))
  {
  }

  /** Every request the loop issues goes to the probe's host, and is a
      check or a run. */
  lemma {:induction false} TryHosts(p: Probe, cmds: seq<string>, far: Far, st: Snapshot)
    ensures var t := TryCandidates(p, cmds, far, st).1.sent;
            forall j :: |st.sent| <= j < |t| ==> t[j].host == p.host && (t[j].Check? || t[j].RunCmd?)
    decreases |cmds|
  {
    if cmds != [] {
      var r1 := Attempt(p, cmds[0], far, st);
      var st1 := r1.1;
      var n, m := |st.sent|, |st1.sent|;
      var t := TryCandidates(p, cmds, far, st).1.sent;
      TryUnfold(p, cmds, far, st);
      assert forall j :: n <= j < m ==> st1.sent[j].host == p.host && (st1.sent[j].Check? || st1.sent[j].RunCmd?);
      if r1.0 == Next {
        TryHosts(p, cmds[1..], far, st1);
        assert t[..m] == st1.sent;
        assert forall j :: n <= j < m ==> t[j] == st1.sent[j];
      }
    }
  }

  /** Splitting a trace at `m` splits the search for the last answered
      request. */
  lemma {:induction false} LastStoredSplit(far: Far, t: seq<Request>, n: nat, m: nat, before: Option<Hash>)
    requires n <= m <= |t|
    ensures LastStored(far, t, n, before) == LastStored(far, t, m, LastStored(far, t[..m], n, before))
    decreases |t|
  {
    if |t| > m {
      var j := |t| - 1;
      assert t[..j][..m] == t[..m];
      LastStoredSplit(far, t[..j], n, m, before);
    } else {
      assert t[..m] == t;
    }
  }

  /** The loop checks candidates strictly in priority order, never skipping
      one: the commands it checks form a prefix of the candidate list. */
  lemma {:induction false} TryOrder(p: Probe, cmds: seq<string>, far: Far, st: Snapshot)
    ensures var t := TryCandidates(p, cmds, far, st).1.sent;
            Checks(t[|st.sent|..]) <= Candidates(cmds, p)
    decreases |cmds|
  {
    var t := TryCandidates(p, cmds, far, st).1.sent;
    var n := |st.sent|;
    if cmds == [] {
      assert t[n..] == [];
    } else {
      var st1 := Attempt(p, cmds[0], far, st).1;
      var m := |st1.sent|;
      TryUnfold(p, cmds, far, st);
      AttemptChecks(p, cmds[0], far, st);
      assert Candidates(cmds, p) == [ReplyCmd(cmds[0], p)] + Candidates(cmds[1..], p);
      TryOrder(p, cmds[1..], far, st1);
      SliceSplit(st1.sent, t, n);
      ChecksAppend(st1.sent[n..], t[m..]);
    }
  }

  /** A run is requested only right after a check of the same command whose
      answer reported `checked_local`. */
  lemma {:induction false} TryRunsGuarded(p: Probe, cmds: seq<string>, far: Far, st: Snapshot)
    ensures var t := TryCandidates(p, cmds, far, st).1.sent;
            forall j :: |st.sent| <= j < |t| && t[j].RunCmd? ==>
              && |st.sent| < j
              && t[j - 1] == Check(p.host, t[j].cmd)
              && CheckedLocal(AnswerAt(far, t, j - 1))
    decreases |cmds|
  {
    var t := TryCandidates(p, cmds, far, st).1.sent;
    if cmds != [] {
      var st1 := Attempt(p, cmds[0], far, st).1;
      var m := |st1.sent|;
      TryUnfold(p, cmds, far, st);
      AttemptRuns(p, cmds[0], far, st);
      TryRunsGuarded(p, cmds[1..], far, st1);
      forall j: nat | j < m {
        AnswerAtPrefix(far, st1.sent, t, j);
      }
      assert t[..m] == st1.sent;
    }
  }

  /** A pass of the loop body requests at most one run, as its second and
      last request, right after a check of the same command that reported
      `checked_local`; the pass breaks exactly when that run reports
      `uv_running`. */
  lemma AttemptRuns(p: Probe, cmd: string, far: Far, st: Snapshot)
    ensures var r := Attempt(p, cmd, far, st);
            var t := r.1.sent;
            var n := |st.sent|;
            && (forall j :: n <= j < |t| && t[j].RunCmd? ==>
                  && j == n + 1 == |t| - 1
                  && t[j - 1] == Check(p.host, t[j].cmd)
                  && CheckedLocal(AnswerAt(far, t, j - 1)))
            && (r.0 == Break <==> |t| == n + 2 && Running(AnswerAt(far, t, n + 1)))
  {
    var r := Attempt(p, cmd, far, st);
    var t := r.1.sent;
    var n := |st.sent|;
    var check := Check(p.host, ReplyCmd(cmd, p));
    AttemptOutcome(p, cmd, far, st);
    assert t[..n] == st.sent;
    if |t| == n + 2 {
      assert t[..n + 1] == st.sent + [check];
    }
  }

  /** An answer depends only on the requests up to and including its own. */
  lemma AnswerAtPrefix(far: Far, t1: seq<Request>, t2: seq<Request>, j: nat)
    requires t1 <= t2 && j < |t1|
    ensures AnswerAt(far, t2, j) == AnswerAt(far, t1, j)
  {
    assert t2[..j] == t1[..j];
  }

  /** The commands checked by one pass of the loop body. */
  lemma ChecksOfBlock(block: seq<Request>, host: string, c: string)
    requires block == [Check(host, c)] || block == [Check(host, c), RunCmd(host, c)]
    ensures Checks(block) == [c]
  {
    if |block| == 1 {
      assert block[1..] == [];
    } else {
      assert block[1..] == [RunCmd(host, c)];
      assert block[1..][1..] == [];
      assert Checks(block[1..]) == [];
    }
  }

  /** The commands checked by one pass of the loop body: just its own
      candidate. */
  lemma AttemptChecks(p: Probe, cmd: string, far: Far, st: Snapshot)
    ensures Checks(Attempt(p, cmd, far, st).1.sent[|st.sent|..]) == [ReplyCmd(cmd, p)]
  {
    var t := Attempt(p, cmd, far, st).1.sent;
    var n := |st.sent|;
    var c := ReplyCmd(cmd, p);
    if |t| == n + 1 {
      assert t[n..] == [Check(p.host, c)];
    } else {
      assert t[n..] == [Check(p.host, c), RunCmd(p.host, c)];
    }
    ChecksOfBlock(t[n..], p.host, c);
  }

  /** Cutting a trace after an earlier trace `s` it extends. */
  lemma SliceSplit(s: seq<Request>, t: seq<Request>, n: nat)
    requires s <= t && n <= |s|
    ensures t[n..] == s[n..] + t[|s|..]
  {
  }

  /** The last request of `t`, issued after position `n`, is a run that
      reported `uv_running`. */
  predicate EndsWithSuccessfulRun(far: Far, t: seq<Request>, n: nat) {
    |t| > n && t[|t| - 1].RunCmd? && Running(AnswerAt(far, t, |t| - 1))
  }

  /** The last request of `t`, issued after position `n`, is a check that
      could not connect. */
  predicate EndsWithFailedCheck(far: Far, t: seq<Request>, n: nat) {
    |t| > n && t[|t| - 1].Check? && AnswerAt(far, t, |t| - 1).ConnError?
  }

  /** The loop ends by `return false` exactly when its last request is a
      check that could not connect. */
  lemma {:induction false} TryAborts(p: Probe, cmds: seq<string>, far: Far, st: Snapshot)
    ensures var r := TryCandidates(p, cmds, far, st);
            var exit, t := r.0, r.1.sent;
            exit == Aborted <==>
              EndsWithFailedCheck(far, t, |st.sent|)
    decreases |cmds|
  {
    var t := TryCandidates(p, cmds, far, st).1.sent;
    if cmds != [] {
      var r1 := Attempt(p, cmds[0], far, st);
      var st1 := r1.1;
      var m := |st1.sent|;
      TryUnfold(p, cmds, far, st);
      AttemptAborts(p, cmds[0], far, st);
      if r1.0 == Next {
        TryAborts(p, cmds[1..], far, st1);
        if |t| == m {
          assert t == st1.sent;
        }
      } else {
        assert t == st1.sent;
      }
    }
  }

  /** Every check before the loop's last request connected: a failed check
      stops the loop at once. */
  lemma {:induction false} TryChecksConnect(p: Probe, cmds: seq<string>, far: Far, st: Snapshot)
    ensures var t := TryCandidates(p, cmds, far, st).1.sent;
            forall j :: |st.sent| <= j < |t| - 1 && t[j].Check? ==> AnswerAt(far, t, j).Reply?
    decreases |cmds|
  {
    var t := TryCandidates(p, cmds, far, st).1.sent;
    if cmds != [] {
      var r1 := Attempt(p, cmds[0], far, st);
      var st1 := r1.1;
      var m := |st1.sent|;
      TryUnfold(p, cmds, far, st);
      AttemptAborts(p, cmds[0], far, st);
      if r1.0 == Next {
        TryChecksConnect(p, cmds[1..], far, st1);
        forall j: nat | j < m {
          AnswerAtPrefix(far, st1.sent, t, j);
        }
        assert t[..m] == st1.sent;
      } else {
        assert t == st1.sent;
      }
    }
  }

  /** One pass of the loop body aborts exactly when its last request is a
      check that could not connect; any earlier check in it connected. */
  lemma AttemptAborts(p: Probe, cmd: string, far: Far, st: Snapshot)
    ensures var r := Attempt(p, cmd, far, st);
            var t := r.1.sent;
            && (r.0 == Abort <==> t[|t| - 1].Check? && AnswerAt(far, t, |t| - 1).ConnError?)
            && forall j :: |st.sent| <= j < |t| - 1 && t[j].Check? ==> AnswerAt(far, t, j).Reply?
  {
    var t := Attempt(p, cmd, far, st).1.sent;
    var n := |st.sent|;
    assert t[..n] == st.sent;
  }

  /** A run that reports `uv_running` is the loop's last request: the
      loop breaks right after it. */
  lemma {:induction false} TrySuccessIsLast(p: Probe, cmds: seq<string>, far: Far, st: Snapshot)
    ensures var r := TryCandidates(p, cmds, far, st);
            var t := r.1.sent;
            forall j :: |st.sent| <= j < |t| && t[j].RunCmd? && Running(AnswerAt(far, t, j)) ==>
              j == |t| - 1 && r.0 == Finished
    decreases |cmds|
  {
    var r := TryCandidates(p, cmds, far, st);
    var t := r.1.sent;
    if cmds != [] {
      var r1 := Attempt(p, cmds[0], far, st);
      var st1 := r1.1;
      var m := |st1.sent|;
      TryUnfold(p, cmds, far, st);
      AttemptRuns(p, cmds[0], far, st);
      TrySuccessIsLast(p, cmds[1..], far, st1);
      forall j: nat | j < m {
        AnswerAtPrefix(far, st1.sent, t, j);
      }
      assert t[..m] == st1.sent;
    }
  }


  /** The loop stops early only after a successful run: when it finishes
      and its last request is not such a run, every candidate was checked. */
  lemma {:induction false} TryExhausts(p: Probe, cmds: seq<string>, far: Far, st: Snapshot)
    ensures var r := TryCandidates(p, cmds, far, st);
            r.0 == Finished && !EndsWithSuccessfulRun(far, r.1.sent, |st.sent|) ==>
              Checks(r.1.sent[|st.sent|..]) == Candidates(cmds, p)
    decreases |cmds|
  {
    var r := TryCandidates(p, cmds, far, st);
    var t := r.1.sent;
    var n := |st.sent|;
    if cmds == [] {
      assert t[n..] == [];
    } else {
      var r1 := Attempt(p, cmds[0], far, st);
      var st1 := r1.1;
      var m := |st1.sent|;
      TryUnfold(p, cmds, far, st);
      if r1.0 == Next {
        AttemptChecks(p, cmds[0], far, st);
        assert Candidates(cmds, p) == [ReplyCmd(cmds[0], p)] + Candidates(cmds[1..], p);
        TryExhausts(p, cmds[1..], far, st1);
        assert EndsWithSuccessfulRun(far, t, m) ==> EndsWithSuccessfulRun(far, t, n);
        SliceSplit(st1.sent, t, n);
        ChecksAppend(st1.sent[n..], t[m..]);
      } else if r1.0 == Break {
        var check := Check(p.host, ReplyCmd(cmds[0], p));
        var run := RunCmd(p.host, ReplyCmd(cmds[0], p));
        AttemptOutcome(p, cmds[0], far, st);
        assert t == st1.sent && m == n + 2;
        assert t[..n + 1] == st.sent + [check];
        assert AnswerAt(far, t, n + 1) == far(st.sent + [check], run);
      }
    }
  }

  /** Unless it breaks after a successful run or stops at a failed check,
      the loop checks every candidate, in order. */
  lemma TryCompletes(p: Probe, cmds: seq<string>, far: Far, st: Snapshot)
    ensures var t := TryCandidates(p, cmds, far, st).1.sent;
            !EndsWithSuccessfulRun(far, t, |st.sent|) && !EndsWithFailedCheck(far, t, |st.sent|) ==>
              Checks(t[|st.sent|..]) == Candidates(cmds, p)
  {
    TryAborts(p, cmds, far, st);
    TryExhausts(p, cmds, far, st);
  }

  /** `@hash_response` ends up holding the answer to the last request that
      was answered at all, whether a check or a run. */
  lemma {:induction false} TryStored(p: Probe, cmds: seq<string>, far: Far, st: Snapshot)
    ensures var r := TryCandidates(p, cmds, far, st);
            r.1.stored == LastStored(far, r.1.sent, |st.sent|, st.stored)
    decreases |cmds|
  {
    var r := TryCandidates(p, cmds, far, st);
    var t := r.1.sent;
    var n := |st.sent|;
    if cmds != [] {
      var r1 := Attempt(p, cmds[0], far, st);
      var st1 := r1.1;
      var m := |st1.sent|;
      TryUnfold(p, cmds, far, st);
      AttemptOutcome(p, cmds[0], far, st);
      if r1.0 == Next {
        TryStored(p, cmds[1..], far, st1);
        assert t[..m] == st1.sent;
        LastStoredSplit(far, t, n, m, st.stored);
      }
    } else {
      assert LastStored(far, t, n, st.stored) == st.stored;
    }
  }

  // ----- properties of the whole probe -----

  /** One unfolding of the probe: the preliminary check, then the loop. */
  lemma CheckAndTxUnfold(ip: string, port: string, cport: string, ipMixer: string, cmds: seq<string>,
                         far: Far, st: Snapshot)
    requires cmds != []
    ensures var p := Probe(DefaultHost(ip), port, cport, ipMixer);
            var pre := Check(p.host, PrelimCmd(port));
            var st1 := Snapshot(st.sent + [pre], st.stored);
            var r := CheckAndTx(ip, port, cport, ipMixer, cmds, far, st);
            var loop := TryCandidates(p, cmds, far, st1);
            && (far(st.sent, pre).ConnError? ==> r == (false, st1))
            && (far(st.sent, pre).Reply? ==> r.1 == loop.1)
            && (far(st.sent, pre).Reply? && loop.0 == Aborted ==> !r.0)
            && (far(st.sent, pre).Reply? && loop.0 == Finished ==>
                  r.0 == Truthy(Field(loop.1.stored.value, "uv_running")))
  {
  }

  /** Every request of the probe goes to the given host, or to 127.0.0.1
      when that host is empty; the first is the preliminary check. */
  lemma CheckAndTxHosts(ip: string, port: string, cport: string, ipMixer: string, cmds: seq<string>,
                        far: Far, st: Snapshot)
    requires cmds != []
    ensures var t := CheckAndTx(ip, port, cport, ipMixer, cmds, far, st).1.sent;
            && (forall j :: |st.sent| <= j < |t| ==> t[j].host == (if ip == "" then LocalHost else ip))
            && t[|st.sent|] == Check(DefaultHost(ip), PrelimCmd(port))
  {
    var p := Probe(DefaultHost(ip), port, cport, ipMixer);
    var pre := Check(p.host, PrelimCmd(port));
    var st1 := Snapshot(st.sent + [pre], st.stored);
    var t := CheckAndTx(ip, port, cport, ipMixer, cmds, far, st).1.sent;
    var n := |st.sent|;
    CheckAndTxUnfold(ip, port, cport, ipMixer, cmds, far, st);
    assert t[n] == pre;
    if far(st.sent, pre).Reply? {
      assert t == TryCandidates(p, cmds, far, st1).1.sent;
      TryHosts(p, cmds, far, st1);
    } else {
      assert t == st1.sent;
    }
  }

  /** After the preliminary check the probe checks candidates in priority
      order without skipping any, and runs a candidate only right after a
      check of it that reported `checked_local`. */
  lemma CheckAndTxOrder(ip: string, port: string, cport: string, ipMixer: string, cmds: seq<string>,
                        far: Far, st: Snapshot)
    requires cmds != []
    ensures var p := Probe(DefaultHost(ip), port, cport, ipMixer);
            var t := CheckAndTx(ip, port, cport, ipMixer, cmds, far, st).1.sent;
            var n := |st.sent| + 1;
            && Checks(t[n..]) <= Candidates(cmds, p)
            && (forall j :: n <= j < |t| ==> t[j].Check? || t[j].RunCmd?)
            && (forall j :: n <= j < |t| && t[j].RunCmd? ==>
                  n < j && t[j - 1] == Check(p.host, t[j].cmd) && CheckedLocal(AnswerAt(far, t, j - 1)))
  {
    var p := Probe(DefaultHost(ip), port, cport, ipMixer);
    var pre := Check(p.host, PrelimCmd(port));
    var st1 := Snapshot(st.sent + [pre], st.stored);
    var r := CheckAndTx(ip, port, cport, ipMixer, cmds, far, st);
    var t := r.1.sent;
    CheckAndTxUnfold(ip, port, cport, ipMixer, cmds, far, st);
    if far(st.sent, pre).Reply? {
      assert t == TryCandidates(p, cmds, far, st1).1.sent;
      TryOrder(p, cmds, far, st1);
      TryHosts(p, cmds, far, st1);
      TryRunsGuarded(p, cmds, far, st1);
    } else {
      assert t[|st.sent| + 1..] == [];
    }
  }

  /** A check that cannot connect ends the probe with result false and
      nothing sent after it; every earlier check connected. */
  lemma CheckAndTxStopsOnConnError(ip: string, port: string, cport: string, ipMixer: string,
                                   cmds: seq<string>, far: Far, st: Snapshot)
    requires cmds != []
    ensures var r := CheckAndTx(ip, port, cport, ipMixer, cmds, far, st);
            var t := r.1.sent;
            var n := |st.sent| + 1;
            && (forall j :: n <= j < |t| - 1 && t[j].Check? ==> AnswerAt(far, t, j).Reply?)
            && (EndsWithFailedCheck(far, t, n) ==> !r.0)
  {
    var p := Probe(DefaultHost(ip), port, cport, ipMixer);
    var pre := Check(p.host, PrelimCmd(port));
    var st1 := Snapshot(st.sent + [pre], st.stored);
    var r := CheckAndTx(ip, port, cport, ipMixer, cmds, far, st);
    var t := r.1.sent;
    CheckAndTxUnfold(ip, port, cport, ipMixer, cmds, far, st);
    if far(st.sent, pre).Reply? {
      var loop := TryCandidates(p, cmds, far, st1);
      assert t == loop.1.sent;
      TryAborts(p, cmds, far, st1);
      TryChecksConnect(p, cmds, far, st1);
    } else {
      assert |t| == |st.sent| + 1;
    }
  }

  /** A run that reports `uv_running` ends the probe, with result true. */
  lemma CheckAndTxStopsOnSuccess(ip: string, port: string, cport: string, ipMixer: string,
                                 cmds: seq<string>, far: Far, st: Snapshot)
    requires cmds != []
    ensures var r := CheckAndTx(ip, port, cport, ipMixer, cmds, far, st);
            var t := r.1.sent;
            forall j :: |st.sent| + 1 <= j < |t| && t[j].RunCmd? && Running(AnswerAt(far, t, j)) ==>
              j == |t| - 1 && r.0
  {
    var p := Probe(DefaultHost(ip), port, cport, ipMixer);
    var pre := Check(p.host, PrelimCmd(port));
    var st1 := Snapshot(st.sent + [pre], st.stored);
    var r := CheckAndTx(ip, port, cport, ipMixer, cmds, far, st);
    var t := r.1.sent;
    CheckAndTxUnfold(ip, port, cport, ipMixer, cmds, far, st);
    if far(st.sent, pre).Reply? {
      var loop := TryCandidates(p, cmds, far, st1);
      assert t == loop.1.sent;
      TrySuccessIsLast(p, cmds, far, st1);
      if EndsWithSuccessfulRun(far, t, |st1.sent|) {
        TryStored(p, cmds, far, st1);
        var a := AnswerAt(far, t, |t| - 1);
        assert LastStored(far, t, |st1.sent|, st1.stored) == Some(a.body);
        assert loop.0 == Finished && loop.1.stored == Some(a.body);
        assert r.0 == Truthy(Field(a.body, "uv_running"));
      }
    } else {
      assert |t| == |st.sent| + 1;
    }
  }

  /** The end of the list is reached, without a successful run and without
      a failed check, only once every candidate has been checked. */
  lemma CheckAndTxExhausts(ip: string, port: string, cport: string, ipMixer: string,
                           cmds: seq<string>, far: Far, st: Snapshot)
    requires cmds != []
    ensures var p := Probe(DefaultHost(ip), port, cport, ipMixer);
            var r := CheckAndTx(ip, port, cport, ipMixer, cmds, far, st);
            var t := r.1.sent;
            var n := |st.sent| + 1;
            (&& AnswerAt(far, t, n - 1).Reply?
             && !EndsWithSuccessfulRun(far, t, n)
             && !EndsWithFailedCheck(far, t, n))
            ==> Checks(t[n..]) == Candidates(cmds, p)
  {
    var p := Probe(DefaultHost(ip), port, cport, ipMixer);
    var pre := Check(p.host, PrelimCmd(port));
    var st1 := Snapshot(st.sent + [pre], st.stored);
    var t := CheckAndTx(ip, port, cport, ipMixer, cmds, far, st).1.sent;
    var n := |st.sent| + 1;
    CheckAndTxUnfold(ip, port, cport, ipMixer, cmds, far, st);
    assert t[..n - 1] == st.sent;
    assert AnswerAt(far, t, n - 1) == far(st.sent, pre);
    if far(st.sent, pre).Reply? {
      var loop := TryCandidates(p, cmds, far, st1);
      assert t == loop.1.sent && |st1.sent| == n;
      TryCompletes(p, cmds, far, st1);
    }
  }

  /** The result is the `uv_running` flag of the response stored last,
      whether that answered a check or a run, provided the preliminary
      check and every check connected. */
  lemma CheckAndTxResult(ip: string, port: string, cport: string, ipMixer: string, cmds: seq<string>,
                        far: Far, st: Snapshot)
    requires cmds != []
    ensures var r := CheckAndTx(ip, port, cport, ipMixer, cmds, far, st);
            var t := r.1.sent;
            var n := |st.sent| + 1;
            && r.1.stored == LastStored(far, t, n, st.stored)
            && (r.0 <==>
                  && AnswerAt(far, t, n - 1).Reply?
                  && !EndsWithFailedCheck(far, t, n)
                  && r.1.stored.Some? && Truthy(Field(r.1.stored.value, "uv_running")))
  {
    var p := Probe(DefaultHost(ip), port, cport, ipMixer);
    var pre := Check(p.host, PrelimCmd(port));
    var st1 := Snapshot(st.sent + [pre], st.stored);
    var r := CheckAndTx(ip, port, cport, ipMixer, cmds, far, st);
    var t := r.1.sent;
    CheckAndTxUnfold(ip, port, cport, ipMixer, cmds, far, st);
    var n := |st.sent| + 1;
    assert t[..n - 1] == st.sent;
    assert AnswerAt(far, t, n - 1) == far(st.sent, pre);
    if far(st.sent, pre).Reply? {
      var loop := TryCandidates(p, cmds, far, st1);
      assert t == loop.1.sent && |st1.sent| == n;
      TryAborts(p, cmds, far, st1);
      TryStored(p, cmds, far, st1);
    } else {
      assert t == st1.sent;
      assert LastStored(far, t, n, st.stored) == st.stored;
    }
  }

  // ----- response interpreters -----

  /** `set_vbcc` and `set_size`: the reported stream configuration when the
      reply's `result` is truthy (nil when the reply has none), `{}` when
      the result is falsy or the call fails. */
  function StreamConfig(a: Answer): (config: Value)
    ensures a.Reply? && Truthy(Field(a.body, "result")) ==> config == Field(a.body, "curr_stream_config")
    ensures !(a.Reply? && Truthy(Field(a.body, "result"))) ==> config == Obj(EmptyHash)
  {
    match a
    case ConnError => Obj(EmptyHash)
    case Reply(body) =>
      if Truthy(Field(body, "result")) then Field(body, "curr_stream_config") else Obj(EmptyHash)
  }

  /** `getUltraGridParams`: the whole reply when it reports `uv_running`,
      `{}` otherwise; so a non-empty result always reports `uv_running`. */
  function RunningParams(a: Answer): (params: Hash)
    ensures Running(a) ==> params == a.body
    ensures !Running(a) ==> params == EmptyHash
    ensures params != EmptyHash ==> Truthy(Field(params, "uv_running"))
  {
    if Running(a) then a.body else EmptyHash
  }

  // ----- the helper's state -----

  /** The UltraGrid helper's state: `@hash_response` and the requests sent
      to the far end `far`. */
  class Client {
    const far: Far
    var hashResponse: Option<Hash>
    var sent: seq<Request>

    function Snap(): Snapshot
      reads this
    {
      Snapshot(sent, hashResponse)
    }

    constructor (far: Far)
      ensures this.far == far && sent == [] && hashResponse == None
    {
      this.far := far;
      sent := [];
      hashResponse := None;
    }

    /** One REST call: the request is sent and answered by the far end. */
    method Call(r: Request) returns (a: Answer)
      modifies this
      ensures a == far(old(sent), r)
      ensures sent == old(sent) + [r] && hashResponse == old(hashResponse)
    {
      a := far(sent, r);
      sent := sent + [r];
    }

    /** `uv_run(ip, cmd)`: stores a parsed reply and reports its
        `uv_running`; a failed call leaves `@hash_response` alone. */
    method UvRun(ip: string, cmd: string) returns (running: bool)
      modifies this
      ensures (running, Snap()) == UvRunSpec(ip, cmd, far, old(Snap()))
    {
      var response := Call(RunCmd(ip, cmd));
      if response.ConnError? {
        return false;
      }
      hashResponse := Some(response.body);
      running := Truthy(Field(response.body, "uv_running"));
    }

    /** One pass of the `each` body of `uv_check_and_tx`: checks the
        candidate `cmd`, stores the answer, and runs it when the far end
        reports `checked_local`. */
    method TryCandidate(p: Probe, cmd: string) returns (step: Step)
      modifies this
      ensures (step, Snap()) == Attempt(p, cmd, far, old(Snap()))
      ensures step != Abort ==> hashResponse.Some?
    {
      ghost var before := Snap();
      var replyCmd := ReplyCmd(cmd, p);
      var response := Call(Check(p.host, replyCmd));
      if response.ConnError? {
        return Abort;
      }
      hashResponse := Some(response.body);
      step := Next;
      if Truthy(Field(response.body, "checked_local")) {
        var running := UvRun(p.host, replyCmd);
        if running {
          step := Break;
        }
      }
      AttemptOutcome(p, cmd, far, before);
    }

    /** `uv_check_and_tx(ip, port, cport)`, with the mixer's address
        `ipMixer` given. */
    method UvCheckAndTx(ip: string, port: string, cport: string, ipMixer: string) returns (ok: bool)
      modifies this
      ensures (ok, Snap()) == CheckAndTx(ip, port, cport, ipMixer, PriorityList, far, old(Snap()))
    {
      var host := ip;
      if host == "" {
        host := LocalHost;
      }
      var p := Probe(host, port, cport, ipMixer);
      var pre := Call(Check(host, PrelimCmd(port)));
      if pre.ConnError? {
        return false;
      }
      ghost var start := Snap();
      var i := 0;
      while i < |PriorityList|
        invariant 0 <= i <= |PriorityList|
        invariant TryCandidates(p, PriorityList, far, start) == TryCandidates(p, PriorityList[i..], far, Snap())
        invariant i > 0 ==> hashResponse.Some?
      {
        assert PriorityList[i..][0] == PriorityList[i] && PriorityList[i..][1..] == PriorityList[i + 1..];
        var step := TryCandidate(p, PriorityList[i]);
        if step == Abort {
          return false;
        } else if step == Break {
          break;
        }
        i := i + 1;
      }
      ok := Truthy(Field(hashResponse.value, "uv_running"));
    }

    /** `set_controlport(ip, port)`: true unless the call fails. */
    method SetControlport(ip: string, port: string) returns (ok: bool)
      modifies this
      ensures ok <==> far(old(sent), SetControlPort(ip, port)).Reply?
      ensures sent == old(sent) + [SetControlPort(ip, port)] && hashResponse == old(hashResponse)
    {
      var response := Call(SetControlPort(ip, port));
      ok := !response.ConnError?;
    }

    /** `getUltraGridParams(ip)`. */
    method GetUltraGridParams(ip: string) returns (params: Hash)
      modifies this
      ensures params == RunningParams(far(old(sent), GetState(ip)))
      ensures sent == old(sent) + [GetState(ip)] && hashResponse == old(hashResponse)
    {
      var response := Call(GetState(ip));
      if response.ConnError? {
        return EmptyHash;
      }
      var reply := response.body;
      if Truthy(Field(reply, "uv_running")) {
        return reply;
      }
      params := EmptyHash;
    }

    /** `set_vbcc(ip, vbcc)`. */
    method SetVbccMode(ip: string, vbcc: string) returns (config: Value)
      modifies this
      ensures config == StreamConfig(far(old(sent), SetVbcc(ip, vbcc)))
      ensures sent == old(sent) + [SetVbcc(ip, vbcc)] && hashResponse == old(hashResponse)
    {
      var response := Call(SetVbcc(ip, vbcc));
      if response.ConnError? {
        return Obj(EmptyHash);
      }
      var reply := response.body;
      if Truthy(Field(reply, "result")) {
        return Field(reply, "curr_stream_config");
      }
      config := Obj(EmptyHash);
    }

    /** `set_size(ip, size)`. */
    method SetSizeValue(ip: string, size: string) returns (config: Value)
      modifies this
      ensures config == StreamConfig(far(old(sent), SetSize(ip, size)))
      ensures sent == old(sent) + [SetSize(ip, size)] && hashResponse == old(hashResponse)
    {
      var response := Call(SetSize(ip, size));
      if response.ConnError? {
        return Obj(EmptyHash);
      }
      var reply := response.body;
      if Truthy(Field(reply, "result")) {
        return Field(reply, "curr_stream_config");
      }
      config := Obj(EmptyHash);
    }
  }
}
