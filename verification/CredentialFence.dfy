/** Revocation and shutdown against connections that are still in their handshake: the endpoint's part. */
module CredentialFence {
  import opened Protocol

  /** registered until the connection's shutdown takes it off the endpoint's list. */
  datatype Conn = Conn(credential: Option<string>, authorized: Option<string>, registered: bool)

  /** A RevokeCredential under way, or with no credential a Close: the connections it has listed and not yet looked
      at. */
  datatype Sweep = Sweep(credential: Option<string>, left: set<nat>)

  datatype State = State(conns: map<nat, Conn>, revoked: set<string>, closed: bool, sweeps: seq<Sweep>)

  const INITIAL := State(map[], {}, false, [])

  function Live(conns: map<nat, Conn>): set<nat> {
    set c | c in conns && conns[c].registered
  }

  datatype Move =
    | Register(c: nat)
    | Shutdown(c: nat)
    | Bind(c: nat, credential: string)
    | Authorize(c: nat, credential: string)
    | Revoke(credential: string)
    | Close
    | SweepNext(i: nat, c: nat)

  /** A sweep is after every connection, or after those bound to its credential. */
  predicate After(sweep: Sweep, conn: Conn) {
    sweep.credential.None? || conn.credential == sweep.credential
  }

  /** The state after one section, or None when it cannot happen; a refused registration, bind or authorization
      changes nothing. */
  function Next(s: State, move: Move): Option<State> {
    match move
    case Register(c) =>
      if c in s.conns then None
      else if s.closed then Some(s)
      else Some(s.(conns := s.conns[c := Conn(None, None, true)]))
    case Shutdown(c) =>
      if c !in s.conns then None else Some(s.(conns := s.conns[c := s.conns[c].(registered := false)]))
    case Bind(c, credential) =>
      if c !in s.conns then None
      else if credential in s.revoked then Some(s)
      else Some(s.(conns := s.conns[c := s.conns[c].(credential := Some(credential))]))
    case Authorize(c, credential) =>
      if c !in s.conns then None
      else if credential in s.revoked then Some(s)
      else Some(s.(conns := s.conns[c := s.conns[c].(authorized := Some(credential))]))
    case Revoke(credential) =>
      Some(s.(revoked := s.revoked + {credential}, sweeps := s.sweeps + [Sweep(Some(credential), Live(s.conns))]))
    case Close => Some(s.(closed := true, sweeps := s.sweeps + [Sweep(None, Live(s.conns))]))
    case SweepNext(i, c) =>
      if i >= |s.sweeps| || c !in s.sweeps[i].left || c !in s.conns then None
      else
        var sweep := s.sweeps[i];
        var swept := s.(sweeps := s.sweeps[i := sweep.(left := sweep.left - {c})]);
        if After(sweep, s.conns[c])
        then Some(swept.(conns := s.conns[c := s.conns[c].(registered := false)]))
        else Some(swept)
  }

  /** The endpoint's maps, changed in place under its lock. */
  class Endpoint {
    var conns: map<nat, Conn>
    var revoked: set<string>
    var closed: bool
    var sweeps: seq<Sweep>

    ghost function Fields(): State
      reads this
    {
      State(conns, revoked, closed, sweeps)
    }

    constructor ()
      ensures Fields() == INITIAL
    {
      conns, revoked, closed, sweeps := map[], {}, false, [];
    }

    method RegisterConnection(c: nat) returns (ok: bool)
      requires c !in conns
      modifies this
      ensures Some(Fields()) == Next(old(Fields()), Register(c)) && ok == !closed
    {
      if closed { return false; }
      conns := conns[c := Conn(None, None, true)];
      return true;
    }

    method BindCredential(c: nat, credential: string) returns (ok: bool)
      requires c in conns
      modifies this
      ensures Some(Fields()) == Next(old(Fields()), Bind(c, credential)) && ok == (credential !in revoked)
    {
      if credential in revoked { return false; }
      conns := conns[c := conns[c].(credential := Some(credential))];
      return true;
    }

    method AuthorizeCredential(c: nat, credential: string) returns (ok: bool)
      requires c in conns
      modifies this
      ensures Some(Fields()) == Next(old(Fields()), Authorize(c, credential)) && ok == (credential !in revoked)
    {
      if credential in revoked { return false; }
      conns := conns[c := conns[c].(authorized := Some(credential))];
      return true;
    }

    /** The locked part of RevokeCredential: the mark and the list of connections. */
    method BeginRevocation(credential: string)
      modifies this
      ensures Some(Fields()) == Next(old(Fields()), Revoke(credential))
    {
      revoked := revoked + {credential};
      var listed := ListConnections();
      assert listed == Live(conns);
      sweeps := sweeps + [Sweep(Some(credential), listed)];
    }

    /** The locked part of Close. */
    method BeginClose()
      modifies this
      ensures Some(Fields()) == Next(old(Fields()), Close)
    {
      closed := true;
      var listed := ListConnections();
      assert listed == Live(conns);
      sweeps := sweeps + [Sweep(None, listed)];
    }

    method ListConnections() returns (listed: set<nat>)
      ensures forall c :: c in listed <==> c in conns && conns[c].registered
    {
      listed := {};
      var rest := conns.Keys;
      while rest != {}
        invariant rest <= conns.Keys
        invariant forall c :: c in listed <==> c in conns.Keys - rest && conns[c].registered
        decreases rest
      {
        var c :| c in rest;
        if conns[c].registered { listed := listed + {c}; }
        rest := rest - {c};
      }
    }

    /** One turn of the loop that ends the listed connections, of the credential or all. */
    method FailNext(i: nat, c: nat)
      requires i < |sweeps| && c in sweeps[i].left && c in conns
      modifies this
      ensures Some(Fields()) == Next(old(Fields()), SweepNext(i, c))
    {
      var sweep := sweeps[i];
      sweeps := sweeps[i := sweep.(left := sweep.left - {c})];
      if After(sweep, conns[c]) {
        conns := conns[c := conns[c].(registered := false)];
      }
    }
  }

  function Run(moves: seq<Move>): Option<State> {
    if moves == [] then Some(INITIAL)
    else
      match Run(moves[..|moves| - 1])
      case None => None
      case Some(before) => Next(before, moves[|moves| - 1])
  }

  ghost predicate Listed(sweeps: seq<Sweep>, credential: Option<string>, c: nat) {
    exists i :: 0 <= i < |sweeps| && sweeps[i].credential == credential && c in sweeps[i].left
  }

  /** A live connection of a revoked credential is still on the list of a revocation under way; once the endpoint
      closes, every live connection is on the list of its close. */
  ghost predicate Caught(s: State) {
    forall c | c in s.conns && s.conns[c].registered ::
      && (s.conns[c].credential.Some? && s.conns[c].credential.value in s.revoked ==>
            Listed(s.sweeps, s.conns[c].credential, c))
      && (s.closed ==> Listed(s.sweeps, None, c))
  }

  lemma ListedMore(sweeps: seq<Sweep>, sweep: Sweep, credential: Option<string>, c: nat)
    requires Listed(sweeps, credential, c) || (sweep.credential == credential && c in sweep.left)
    ensures Listed(sweeps + [sweep], credential, c)
  {
    if Listed(sweeps, credential, c) {
      var i :| 0 <= i < |sweeps| && sweeps[i].credential == credential && c in sweeps[i].left;
      assert (sweeps + [sweep])[i] == sweeps[i];
    } else {
      assert (sweeps + [sweep])[|sweeps|] == sweep;
    }
  }

  lemma BeginCatches(s: State, move: Move)
    requires Caught(s) && (move.Revoke? || move.Close?)
    ensures Caught(Next(s, move).value)
  {
    hide Listed;
    var n := Next(s, move).value;
    var sweep := n.sweeps[|s.sweeps|];
    forall c | c in n.conns && n.conns[c].registered
      ensures n.conns[c].credential.Some? && n.conns[c].credential.value in n.revoked ==>
                Listed(n.sweeps, n.conns[c].credential, c)
      ensures n.closed ==> Listed(n.sweeps, None, c)
    {
      assert c in sweep.left;
      if n.conns[c].credential.Some? && n.conns[c].credential.value in n.revoked {
        ListedMore(s.sweeps, sweep, n.conns[c].credential, c);
      }
      if n.closed { ListedMore(s.sweeps, sweep, None, c); }
    }
  }

  /** Only the connection a sweep looks at leaves its list, and it stays only if the sweep is not after it. */
  lemma SweptStays(s: State, i: nat, c: nat, credential: Option<string>, d: nat)
    requires Next(s, SweepNext(i, c)).Some? && Listed(s.sweeps, credential, d)
    requires d == c ==> s.sweeps[i].credential != credential
    ensures Listed(Next(s, SweepNext(i, c)).value.sweeps, credential, d)
  {
    var n := Next(s, SweepNext(i, c)).value;
    var j :| 0 <= j < |s.sweeps| && s.sweeps[j].credential == credential && d in s.sweeps[j].left;
    assert n.sweeps[j].credential == credential && d in n.sweeps[j].left;
  }

  lemma SweepCatches(s: State, i: nat, c: nat)
    requires Caught(s) && Next(s, SweepNext(i, c)).Some?
    ensures Caught(Next(s, SweepNext(i, c)).value)
  {
    hide Listed;
    var n := Next(s, SweepNext(i, c)).value;
    forall d | d in n.conns && n.conns[d].registered
      ensures n.conns[d].credential.Some? && n.conns[d].credential.value in n.revoked ==>
                Listed(n.sweeps, n.conns[d].credential, d)
      ensures n.closed ==> Listed(n.sweeps, None, d)
    {
      if n.conns[d].credential.Some? && n.conns[d].credential.value in n.revoked {
        SweptStays(s, i, c, n.conns[d].credential, d);
      }
      if n.closed { SweptStays(s, i, c, None, d); }
    }
  }

  lemma {:induction false} AlwaysCaught(moves: seq<Move>)
    requires Run(moves).Some?
    ensures Caught(Run(moves).value)
  {
    if moves != [] {
      var before := Run(moves[..|moves| - 1]).value;
      AlwaysCaught(moves[..|moves| - 1]);
      match moves[|moves| - 1] {
        case Revoke(credential) => BeginCatches(before, Revoke(credential));
        case Close => BeginCatches(before, Close);
        case SweepNext(i, c) => SweepCatches(before, i, c);
        case _ => hide Listed;
      }
    }
  }

  /** When every revocation of a credential has gone through its list, no live connection is bound to it, however
      registrations, binds, authorizations, revocations and closes interleaved. */
  lemma RevokedNowhereLive(moves: seq<Move>, credential: string)
    requires Run(moves).Some? && credential in Run(moves).value.revoked
    requires forall i | 0 <= i < |Run(moves).value.sweeps| ::
               Run(moves).value.sweeps[i].credential == Some(credential) ==> Run(moves).value.sweeps[i].left == {}
    ensures var s := Run(moves).value;
            forall c | c in s.conns && s.conns[c].credential == Some(credential) :: !s.conns[c].registered
  {
    AlwaysCaught(moves);
  }

  /** When the endpoint is closed and every close has gone through its list, no connection is live. */
  lemma ClosedNowhereLive(moves: seq<Move>)
    requires Run(moves).Some? && Run(moves).value.closed
    requires forall i | 0 <= i < |Run(moves).value.sweeps| ::
               Run(moves).value.sweeps[i].credential == None ==> Run(moves).value.sweeps[i].left == {}
    ensures Live(Run(moves).value.conns) == {}
  {
    AlwaysCaught(moves);
  }

  /** The connection's own discipline: it authorizes by the credential it is bound to, and is not bound afresh after. */
  ghost predicate Orderly(moves: seq<Move>) {
    forall i | 0 <= i < |moves| && Run(moves[..i]).Some? ::
      match moves[i]
      case Bind(c, _) => c in Run(moves[..i]).value.conns ==> Run(moves[..i]).value.conns[c].authorized.None?
      case Authorize(c, credential) =>
        c in Run(moves[..i]).value.conns ==> Run(moves[..i]).value.conns[c].credential == Some(credential)
      case _ => true
  }

  lemma {:induction false} AuthorizedByBound(moves: seq<Move>, c: nat)
    requires Run(moves).Some? && Orderly(moves) && c in Run(moves).value.conns
    ensures var conn := Run(moves).value.conns[c]; conn.authorized.Some? ==> conn.authorized == conn.credential
  {
    if moves != [] {
      var front := moves[..|moves| - 1];
      forall i | 0 <= i < |front| ensures front[..i] == moves[..i] {
      }
      if c in Run(front).value.conns { AuthorizedByBound(front, c); }
      assert Run(moves[..|front|]) == Run(front);
    }
  }

  /** So nobody goes on with an authorization by a revoked credential. */
  lemma RevokedNowhereAuthorized(moves: seq<Move>, credential: string)
    requires Run(moves).Some? && Orderly(moves) && credential in Run(moves).value.revoked
    requires forall i | 0 <= i < |Run(moves).value.sweeps| ::
               Run(moves).value.sweeps[i].credential == Some(credential) ==> Run(moves).value.sweeps[i].left == {}
    ensures var s := Run(moves).value;
            forall c | c in s.conns && s.conns[c].authorized == Some(credential) :: !s.conns[c].registered
  {
    var s := Run(moves).value;
    RevokedNowhereLive(moves, credential);
    forall c | c in s.conns && s.conns[c].authorized == Some(credential) ensures !s.conns[c].registered {
      AuthorizedByBound(moves, c);
    }
  }

  // ---------- Nobody else is cut off ----------

  /** The section of a run that ends a connection: its own shutdown, a revocation of the credential it carries, or a
      close of the endpoint. */
  predicate Ends(s: State, move: Move, c: nat) {
    c in s.conns &&
    match move
    case Shutdown(d) => d == c
    case SweepNext(i, d) => d == c && i < |s.sweeps| && HasReason(s, s.sweeps[i].credential, s.conns[c])
    case _ => false
  }

  predicate HasReason(s: State, swept: Option<string>, conn: Conn) {
    match swept
    case Some(credential) => credential in s.revoked && conn.credential == Some(credential)
    case None => s.closed
  }

  /** Every sweep under way has its reason. */
  ghost predicate Grounded(s: State) {
    forall i | 0 <= i < |s.sweeps| ::
      if s.sweeps[i].credential.Some? then s.sweeps[i].credential.value in s.revoked else s.closed
  }

  lemma {:induction false} AlwaysGrounded(moves: seq<Move>)
    requires Run(moves).Some?
    ensures Grounded(Run(moves).value)
  {
    if moves != [] {
      hide Next;
      AlwaysGrounded(moves[..|moves| - 1]);
      GroundedStep(Run(moves[..|moves| - 1]).value, moves[|moves| - 1]);
    }
  }

  lemma GroundedStep(s: State, move: Move)
    requires Grounded(s) && Next(s, move).Some?
    ensures Grounded(Next(s, move).value)
  {
    match move
    case SweepNext(i, c) =>
    case _ =>
  }

  /** In every run a connection that was registered and no longer is was ended by its own shutdown, by a revocation of
      the credential it carried then, or by a close of the endpoint: revoking one credential cuts off nobody else. */
  lemma {:induction false} EndedForReason(moves: seq<Move>, c: nat)
    requires Run(moves).Some? && c in Run(moves).value.conns && !Run(moves).value.conns[c].registered
    ensures exists n :: 0 <= n < |moves| && Run(moves[..n]).Some? && Ends(Run(moves[..n]).value, moves[n], c)
  {
    var front := moves[..|moves| - 1];
    var s := Run(front).value;
    assert Run(moves[..|front|]).Some?;
    if c in s.conns && !s.conns[c].registered {
      EndedForReason(front, c);
      var n :| 0 <= n < |front| && Run(front[..n]).Some? && Ends(Run(front[..n]).value, front[n], c);
      assert front[..n] == moves[..n] && front[n] == moves[n];
    } else {
      AlwaysGrounded(front);
      assert Ends(s, moves[|front|], c);
    }
  }

  /** And a sweep does end the connection it looks at if that is bound to its credential, or the endpoint closes. */
  lemma SweepEnds(moves: seq<Move>, i: nat, c: nat)
    requires Run(moves).Some? && Next(Run(moves).value, SweepNext(i, c)).Some?
    ensures var s, n := Run(moves).value, Next(Run(moves).value, SweepNext(i, c)).value;
            && c in n.conns
            && n.conns[c].registered == (s.conns[c].registered && !Ends(s, SweepNext(i, c), c))
            && forall d | d in s.conns && d != c :: d in n.conns && n.conns[d] == s.conns[d]
  {
    AlwaysGrounded(moves);
  }

  // ---------- What the endpoint does for its connections ----------

  lemma RunOne(moves: seq<Move>, move: Move)
    requires Run(moves).Some?
    ensures Run(moves + [move]) == Next(Run(moves).value, move)
  {
    hide Next;
    assert (moves + [move])[..|moves|] == moves;
  }

  /** From every reachable state a new connection gets in, is bound and is authorized, in this order, exactly when the
      endpoint is open and the credential is not revoked; a refusal changes nothing, and nobody else is touched. */
  lemma {:induction false} HandshakeExact(moves: seq<Move>, c: nat, credential: string)
    requires Run(moves).Some? && c !in Run(moves).value.conns
    ensures Run(moves + [Register(c)]).Some?
    ensures var s := Run(moves).value;
            Run(moves + [Register(c)]).value ==
              if s.closed then s else s.(conns := s.conns[c := Conn(None, None, true)])
    ensures !Run(moves).value.closed ==>
              var s := Run(moves).value;
              var revoked := credential in s.revoked;
              var conn := if revoked then Conn(None, None, true) else Conn(Some(credential), Some(credential), true);
              Run(moves + [Register(c)] + [Bind(c, credential)] + [Authorize(c, credential)]) ==
                Some(s.(conns := s.conns[c := conn]))
  {
    hide Run;
    RunOne(moves, Register(c));
    if !Run(moves).value.closed {
      RunOne(moves + [Register(c)], Bind(c, credential));
      RunOne(moves + [Register(c)] + [Bind(c, credential)], Authorize(c, credential));
      var conns := Run(moves).value.conns;
      var unbound, bound := Conn(None, None, true), Conn(Some(credential), None, true);
      var through := Conn(Some(credential), Some(credential), true);
      var registered: map<nat, Conn> := conns[c := unbound];
      var listed: map<nat, Conn> := conns[c := bound];
      assert registered[c := bound] == listed && listed[c := through] == conns[c := through];
    }
  }

  /** The connections with those ended that a sweep is after. */
  function Cut(conns: map<nat, Conn>, among: set<nat>, sweep: Sweep): map<nat, Conn> {
    map c | c in conns :: if c in among && After(sweep, conns[c]) then conns[c].(registered := false) else conns[c]
  }

  /** A sweep that is not interrupted ends exactly the listed connections it is after. */
  lemma {:induction false} SweepAll(moves: seq<Move>, i: nat) returns (more: seq<Move>)
    requires Run(moves).Some? && i < |Run(moves).value.sweeps|
    requires Run(moves).value.sweeps[i].left <= Run(moves).value.conns.Keys
    ensures Run(moves + more).Some?
    ensures var s, n := Run(moves).value, Run(moves + more).value;
            && n.conns == Cut(s.conns, s.sweeps[i].left, s.sweeps[i]) && n.revoked == s.revoked && n.closed == s.closed
            && n.sweeps == s.sweeps[i := s.sweeps[i].(left := {})]
    decreases |Run(moves).value.sweeps[i].left|
  {
    hide Run;
    var s := Run(moves).value;
    var sweep := s.sweeps[i];
    if sweep.left == {} {
      more := [];
      assert moves + more == moves;
      assert Cut(s.conns, {}, sweep) == s.conns;
    } else {
      var c :| c in sweep.left;
      RunOne(moves, SweepNext(i, c));
      var next := Run(moves + [SweepNext(i, c)]).value;
      var rest := SweepAll(moves + [SweepNext(i, c)], i);
      assert moves + [SweepNext(i, c)] + rest == moves + ([SweepNext(i, c)] + rest);
      CutOneMore(s.conns, sweep, c, next.conns);
      more := [SweepNext(i, c)] + rest;
    }
  }

  lemma CutOneMore(conns: map<nat, Conn>, sweep: Sweep, c: nat, next: map<nat, Conn>)
    requires c in sweep.left && sweep.left <= conns.Keys
    requires next == if After(sweep, conns[c]) then conns[c := conns[c].(registered := false)] else conns
    ensures Cut(next, sweep.left - {c}, sweep.(left := sweep.left - {c})) == Cut(conns, sweep.left, sweep)
  {
  }

  /** From every reachable state a revocation that is not interrupted ends exactly the connections bound to its
      credential, and marks the credential; a close ends all. */
  lemma {:induction false} RevocationExact(moves: seq<Move>, credential: string) returns (more: seq<Move>)
    requires Run(moves).Some?
    ensures Run(moves + [Revoke(credential)] + more).Some?
    ensures var s, n := Run(moves).value, Run(moves + [Revoke(credential)] + more).value;
            && n.revoked == s.revoked + {credential} && n.closed == s.closed && n.conns.Keys == s.conns.Keys
            && forall c | c in s.conns ::
                 n.conns[c] == if s.conns[c].credential == Some(credential) then s.conns[c].(registered := false)
                               else s.conns[c]
  {
    hide Run;
    RunOne(moves, Revoke(credential));
    more := SweepAll(moves + [Revoke(credential)], |Run(moves).value.sweeps|);
  }

  lemma {:induction false} CloseExact(moves: seq<Move>) returns (more: seq<Move>)
    requires Run(moves).Some?
    ensures Run(moves + [Close] + more).Some?
    ensures var s, n := Run(moves).value, Run(moves + [Close] + more).value;
            && n.revoked == s.revoked && n.closed && n.conns.Keys == s.conns.Keys
            && forall c | c in s.conns :: n.conns[c] == s.conns[c].(registered := false)
  {
    hide Run;
    RunOne(moves, Close);
    more := SweepAll(moves + [Close], |Run(moves).value.sweeps|);
  }
}
