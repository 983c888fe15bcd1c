/** jarvis/recent_failures.go and jarvis/users.go: the sliding-window login limiter. */
module Logins {
  import opened Basics

  const FAILURE_WINDOW := 180_000_000_000   // three minutes, in nanoseconds
  const MAX_FAILURES := 5

  /** The failures younger than the window at `now`. */
  function Within(ts: seq<int>, now: int): seq<int> {
    if ts == [] then []
    else
      var rest, t := Within(ts[..|ts| - 1], now), ts[|ts| - 1];
      if t > now - FAILURE_WINDOW then rest + [t] else rest
  }

  class RecentFailures {
    var timestamps: seq<int>

    constructor (ts: seq<int>)
      ensures timestamps == ts
    {
      timestamps := ts;
    }

    method Update(now: int)
      modifies this
      ensures timestamps == Within(old(timestamps), now)
    {
      var cut := now - FAILURE_WINDOW;
      var ts: seq<int> := [];
      for i := 0 to |timestamps|
        invariant timestamps == old(timestamps)
        invariant ts == Within(timestamps[..i], now)
      {
        assert timestamps[..i + 1][..i] == timestamps[..i];
        if timestamps[i] > cut {
          ts := ts + [timestamps[i]];
        }
      }
      assert timestamps[..|timestamps|] == timestamps;
      timestamps := ts;
    }

    method Count(now: int) returns (n: nat)
      modifies this
      ensures timestamps == Within(old(timestamps), now) && n == |timestamps|
    {
      Update(now);
      n := |timestamps|;
    }

    method Add(now: int) returns (n: nat)
      modifies this
      ensures timestamps == Within(old(timestamps), now) + [now] && n == |timestamps|
    {
      Update(now);
      timestamps := timestamps + [now];
      n := |timestamps|;
    }

    method Clear()
      modifies this
      ensures timestamps == []
    {
      timestamps := [];
    }
  }

  /** A stored password: the newer hash if there is one, else the legacy one, which may be unusable. */
  datatype Password = Password(argon2: Option<string>, bcrypt: Option<string>)

  datatype UserInfo = UserInfo(password: Password, failures: Option<seq<int>>)

  datatype Check = Right | Wrong | Unusable

  function CheckUserPassword(p: Password, given: string): (check: Check)
    ensures check == Right <==> p.argon2 == Some(given) || (p.argon2 == None && p.bcrypt == Some(given))
    ensures check == Unusable <==> p.argon2 == None && p.bcrypt == None
  {
    match p.argon2
    case Some(secret) => if secret == given then Right else Wrong
    case None =>
      match p.bcrypt
      case Some(secret) => if secret == given then Right else Wrong
      case None => Unusable
  }

  datatype Outcome = Admitted | WrongPassword | TooManyFailures | BadHash | NoSuchUser

  function FailuresOf(info: UserInfo): seq<int> {
    match info.failures case Some(ts) => ts case None => []
  }

  /** One sign-in as a step on the recorded failures. */
  function SignIn(ts: seq<int>, now: int, check: Check): (seq<int>, Outcome) {
    if |Within(ts, now)| >= MAX_FAILURES then (ts, TooManyFailures)
    else match check
         case Right => ([], Admitted)
         case Wrong => (Within(ts, now) + [now], WrongPassword)
         case Unusable => (ts, BadHash)
  }

  class Users {
    var table: map<string, UserInfo>

    constructor ()
      ensures table == map[]
    {
      table := map[];
    }

    /** Works on a copy of the record; what it prunes is not stored. */
    method LoginRateLimit(user: string, now: int) returns (r: Option<Outcome>)
      ensures user !in table ==> r == Some(NoSuchUser)
      ensures user in table ==>
                r == if |Within(FailuresOf(table[user]), now)| >= 5 then Some(TooManyFailures) else None
    {
      if user !in table {
        return Some(NoSuchUser);
      }
      match table[user].failures {
        case None => return None;
        case Some(ts) =>
          var recent := new RecentFailures(ts);
          var n := recent.Count(now);
          return if n < MAX_FAILURES then None else Some(TooManyFailures);
      }
    }

    method RecordLoginFailure(user: string, now: int)
      requires user in table
      modifies this
      ensures table ==
              var info := old(table)[user];
              old(table)[user := info.(failures := Some(Within(FailuresOf(info), now) + [now]))]
    {
      var info := table[user];
      var recent := new RecentFailures(match info.failures { case Some(ts) => ts case None => [] });
      var _ := recent.Add(now);
      table := table[user := info.(failures := Some(recent.timestamps))];
    }

    method RecordLoginSuccess(user: string)
      requires user in table
      modifies this
      ensures table.Keys == old(table).Keys && FailuresOf(table[user]) == []
      ensures table[user].password == old(table)[user].password
      ensures forall u :: u in table && u != user ==> table[u] == old(table)[u]
    {
      var info := table[user];
      if info.failures.Some? {
        var recent := new RecentFailures(info.failures.value);
        recent.Clear();
        table := table[user := info.(failures := Some(recent.timestamps))];
      }
    }

    method CheckPassword(user: string, given: string, now: int) returns (r: Outcome)
      modifies this
      ensures table.Keys == old(table).Keys
      ensures forall u :: u in table && u != user ==> table[u] == old(table)[u]
      ensures user !in table ==> r == NoSuchUser
      ensures user in table ==>
                && table[user].password == old(table)[user].password
                && (FailuresOf(table[user]), r) ==
                     SignIn(FailuresOf(old(table)[user]), now, CheckUserPassword(old(table)[user].password, given))
      ensures r == Admitted ==>
                var p := old(table)[user].password;
                p.argon2 == Some(given) || (p.argon2 == None && p.bcrypt == Some(given))
      ensures r == WrongPassword ==>
                var p := old(table)[user].password;
                p.argon2 != Some(given) && (p.argon2 == None ==> p.bcrypt.Some? && p.bcrypt != Some(given))
    {
      var limit := LoginRateLimit(user, now);
      if limit.Some? {
        return limit.value;
      }
      match CheckUserPassword(table[user].password, given) {
        case Wrong =>
          RecordLoginFailure(user, now);
          return WrongPassword;
        case Unusable =>
          return BadHash;
        case Right =>
          RecordLoginSuccess(user);
          return Admitted;
      }
    }
  }

  // ---- Histories of one user ----------------------------------------------------------------------

  datatype Try = Try(at: int, check: Check)

  ghost predicate InOrder(tries: seq<Try>) {
    forall i, j :: 0 <= i < j < |tries| ==> tries[i].at <= tries[j].at
  }

  /** The record, and beside it every wrong password let in since the last success, never pruned. */
  datatype Book = Book(recorded: seq<int>, full: seq<int>)

  function Enter(b: Book, t: Try): Book {
    var (recorded, outcome) := SignIn(b.recorded, t.at, t.check);
    Book(recorded, match outcome
                   case Admitted => []
                   case WrongPassword => b.full + [t.at]
                   case _ => b.full)
  }

  function After(tries: seq<Try>): Book {
    if tries == [] then Book([], [])
    else Enter(After(tries[..|tries| - 1]), tries[|tries| - 1])
  }

  function OutcomeAfter(tries: seq<Try>, now: int, check: Check): Outcome {
    SignIn(After(tries).recorded, now, check).1
  }

  ghost predicate Sorted(ts: seq<int>) {
    forall i, j :: 0 <= i < j < |ts| ==> ts[i] <= ts[j]
  }

  lemma WithinConcat(a: seq<int>, t: int, now: int)
    ensures Within(a + [t], now) == Within(a, now) + if t > now - FAILURE_WINDOW then [t] else []
  {
  }

  /** Exactly the young ones are kept. */
  lemma {:induction false} WithinKeepsTheYoung(ts: seq<int>, now: int, t: int)
    ensures t in Within(ts, now) <==> t in ts && t > now - 3 * 60 * 1_000_000_000
  {
    if ts != [] {
      WithinKeepsTheYoung(ts[..|ts| - 1], now, t);
      assert ts == ts[..|ts| - 1] + [ts[|ts| - 1]];
    }
  }

  /** The unpruned history: every wrong password that was let in to be checked, since the last success. */
  lemma {:induction false} HistoryStep(tries: seq<Try>, t: Try)
    ensures var before, after := After(tries).full, After(tries + [t]).full;
      match OutcomeAfter(tries, t.at, t.check)
      case Admitted => after == [] && t.check == Right
      case WrongPassword => after == before + [t.at] && t.check == Wrong
      case _ => after == before
  {
    assert (tries + [t])[..|tries|] == tries;
  }

  lemma {:induction false} WithinTwice(ts: seq<int>, now: int, later: int)
    requires now <= later
    ensures Within(Within(ts, now), later) == Within(ts, later)
  {
    if ts != [] {
      var init, t := ts[..|ts| - 1], ts[|ts| - 1];
      WithinTwice(init, now, later);
      WithinConcat(Within(init, now), t, later);
    }
  }

  ghost predicate UpTo(tries: seq<Try>, now: int) {
    forall t :: t in tries ==> t.at <= now
  }

  lemma DropLast(tries: seq<Try>)
    requires InOrder(tries) && tries != []
    ensures InOrder(tries[..|tries| - 1]) && UpTo(tries[..|tries| - 1], tries[|tries| - 1].at)
  {
  }

  lemma {:induction false} OneMoreFailure(ts: seq<int>, full: seq<int>, t: int, now: int)
    requires t <= now && Within(ts, now) == Within(full, now)
    ensures Within(Within(ts, t) + [t], now) == Within(full + [t], now)
  {
    WithinConcat(Within(ts, t), t, now);
    WithinTwice(ts, t, now);
    WithinConcat(full, t, now);
  }

  lemma {:induction false} EnterKeepsAgreement(b: Book, t: Try, now: int)
    requires t.at <= now && Within(b.recorded, now) == Within(b.full, now) && |b.recorded| <= MAX_FAILURES
    ensures Within(Enter(b, t).recorded, now) == Within(Enter(b, t).full, now)
    ensures |Enter(b, t).recorded| <= MAX_FAILURES
  {
    OneMoreFailure(b.recorded, b.full, t.at, now);
  }

  /** Pruning loses nothing that could still count. */
  lemma {:induction false} PrunedAgreesWithHistory(tries: seq<Try>, now: int)
    requires InOrder(tries) && UpTo(tries, now)
    ensures Within(After(tries).recorded, now) == Within(After(tries).full, now)
    ensures |After(tries).recorded| <= MAX_FAILURES
    decreases |tries|
  {
    if tries != [] {
      var init, t := tries[..|tries| - 1], tries[|tries| - 1];
      DropLast(tries);
      assert UpTo(init, now);
      PrunedAgreesWithHistory(init, now);
      assert t in tries;
      EnterKeepsAgreement(After(init), t, now);
    }
  }

  lemma {:induction false} EnterKeepsOrder(b: Book, t: Try)
    requires Sorted(b.full) && forall x :: x in b.full ==> x <= t.at
    ensures Sorted(Enter(b, t).full) && forall x :: x in Enter(b, t).full ==> x <= t.at
  {
    var full := Enter(b, t).full;
    forall i, j | 0 <= i < j < |full| ensures full[i] <= full[j] {
      assert full[i] in full && full[i] in b.full;
    }
  }

  lemma {:induction false} HistoryIsSorted(tries: seq<Try>)
    requires InOrder(tries)
    ensures Sorted(After(tries).full)
    ensures forall x :: x in After(tries).full ==> tries != [] && x <= tries[|tries| - 1].at
  {
    if tries != [] {
      var init, t := tries[..|tries| - 1], tries[|tries| - 1];
      HistoryIsSorted(init);
      if init != [] {
        assert init[|init| - 1].at <= t.at;
      }
      EnterKeepsOrder(After(init), t);
    }
  }

  /** In an ordered list, an entry inside the window has everything after it inside too. */
  lemma {:induction false} WindowIsASuffix(ts: seq<int>, now: int, k: nat)
    requires Sorted(ts) && k < |ts| && ts[k] > now - FAILURE_WINDOW
    ensures |Within(ts, now)| >= |ts| - k
  {
    if k < |ts| - 1 {
      assert ts[k] <= ts[|ts| - 1];
      WindowIsASuffix(ts[..|ts| - 1], now, k);
    }
  }

  /**
   No more than five wrong passwords get in within three minutes without a success: of any six in
   a row, the first and the last are at least a window apart.
   */
  lemma {:induction false} SixFailuresSpanTheWindow(tries: seq<Try>, k: nat)
    requires InOrder(tries) && k + 5 < |After(tries).full|
    ensures After(tries).full[k + 5] - After(tries).full[k] >= 3 * 60 * 1_000_000_000
    decreases |tries|
  {
    var init, t := tries[..|tries| - 1], tries[|tries| - 1];
    var before := After(init).full;
    DropLast(tries);
    if k + MAX_FAILURES < |before| {
      SixFailuresSpanTheWindow(init, k);
    } else {
      HistoryIsSorted(init);
      PrunedAgreesWithHistory(init, t.at);
      LimitReached(before, t.at);
    }
  }

  lemma {:induction false} LimitReached(ts: seq<int>, now: int)
    requires Sorted(ts)
    ensures |Within(ts, now)| >= MAX_FAILURES <==>
              |ts| >= MAX_FAILURES && ts[|ts| - MAX_FAILURES] > now - FAILURE_WINDOW
  {
    var k := |ts| - MAX_FAILURES;
    if k >= 0 && ts[k] > now - FAILURE_WINDOW {
      WindowIsASuffix(ts, now, k);
    } else {
      FewInsideTheWindow(ts, now, if k >= 0 then k + 1 else 0);
    }
  }

  /** A user is locked out exactly while five failures since the last success are inside the window. */
  lemma {:induction false} LockedOutExactlyByHistory(tries: seq<Try>, now: int, check: Check)
    requires InOrder(tries) && UpTo(tries, now)
    ensures var all := After(tries).full;
      OutcomeAfter(tries, now, check) == TooManyFailures <==>
        |all| >= 5 && all[|all| - 5] > now - 3 * 60 * 1_000_000_000
  {
    var b := After(tries);
    assert Within(b.recorded, now) == Within(b.full, now) by {
      PrunedAgreesWithHistory(tries, now);
    }
    assert Sorted(b.full) by {
      HistoryIsSorted(tries);
    }
    LockedBy(b, now, check);
  }

  lemma {:induction false} LockedBy(b: Book, now: int, check: Check)
    requires Within(b.recorded, now) == Within(b.full, now) && Sorted(b.full)
    ensures SignIn(b.recorded, now, check).1 == TooManyFailures <==>
              |b.full| >= MAX_FAILURES && b.full[|b.full| - MAX_FAILURES] > now - FAILURE_WINDOW
  {
    LimitReached(b.full, now);
  }

  lemma {:induction false} FewInsideTheWindow(ts: seq<int>, now: int, k: nat)
    requires Sorted(ts) && k <= |ts| && (k > 0 ==> ts[k - 1] <= now - FAILURE_WINDOW)
    ensures |Within(ts, now)| <= |ts| - k
  {
    if k < |ts| {
      FewInsideTheWindow(ts[..|ts| - 1], now, k);
    } else if ts != [] {
      if |ts| > 1 {
        assert ts[|ts| - 2] <= ts[|ts| - 1];
      }
      FewInsideTheWindow(ts[..|ts| - 1], now, k - 1);
    }
  }

  ghost predicate AllTurnedAway(tries: seq<Try>, more: seq<Try>) {
    more == [] ||
    var init, t := more[..|more| - 1], more[|more| - 1];
    AllTurnedAway(tries, init) && OutcomeAfter(tries + init, t.at, t.check) == TooManyFailures
  }

  /** Being turned away is not a failure: the lock opens once the window has passed, knock or not. */
  lemma {:induction false} KnockingDoesNotExtendTheLock(tries: seq<Try>, more: seq<Try>)
    requires AllTurnedAway(tries, more)
    ensures After(tries + more) == After(tries)
  {
    if more == [] {
      assert tries + more == tries;
    } else {
      var all, init := tries + more, more[..|more| - 1];
      KnockingDoesNotExtendTheLock(tries, init);
      assert all[..|all| - 1] == tries + init && all[|all| - 1] == more[|more| - 1];
      TurnedAwayChangesNothing(After(tries + init), more[|more| - 1]);
      assert After(all) == Enter(After(tries + init), more[|more| - 1]);
    }
  }

  /**
   However often a locked user knocks: a window after the last attempt that was not turned away, the
   right password is let in.
   */
  lemma {:induction false} LockOpensAgain(tries: seq<Try>, more: seq<Try>, now: int)
    requires InOrder(tries) && tries != [] && AllTurnedAway(tries, more)
    requires now >= tries[|tries| - 1].at + FAILURE_WINDOW
    ensures OutcomeAfter(tries + more, now, Right) == Admitted
    ensures OutcomeAfter(tries + more, now, Wrong) == WrongPassword
  {
    KnockingDoesNotExtendTheLock(tries, more);
    HistoryIsSorted(tries);
    forall t | t in tries ensures t.at <= now {
      var i :| 0 <= i < |tries| && tries[i] == t;
      assert i < |tries| - 1 ==> tries[i].at <= tries[|tries| - 1].at;
    }
    var all := After(tries).full;
    assert |all| >= MAX_FAILURES ==> all[|all| - MAX_FAILURES] in all;
    LockedOutExactlyByHistory(tries, now, Right);
    LockedOutExactlyByHistory(tries, now, Wrong);
  }

  lemma TurnedAwayChangesNothing(b: Book, t: Try)
    requires SignIn(b.recorded, t.at, t.check).1 == TooManyFailures
    ensures Enter(b, t) == b
  {
  }
}
