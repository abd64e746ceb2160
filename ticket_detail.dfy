/**
 * The ticket's QR panel: the QR text encodes the event, the user and a time stamp, and a
 * countdown from 15 ticks once a second, renewing the QR text whenever it wraps round.
 */
module TicketDetail {
  import opened Wrappers
  import opened Text

  const CountdownStart: int := 15

  datatype EventRef = EventRef(id: nat)
  datatype UserRef = UserRef(id: nat)

  // ---------------------------------------------------------------- QR text

  const EventKey: string := "{\"eventId\":"
  const UserKey: string := ",\"userId\":"
  const TimeKey: string := ",\"timestamp\":"

  /** A JSON member `key` with a number value, followed by the rest of the text. */
  function Member(key: string, n: nat, rest: string): (r: string)
    ensures key != "" ==> r != "" && r[0] == key[0]
  {
    key + DecimalString(n) + rest
  }

  /**
   * `generateQrValue`, with `Date.now()` as an input: empty without the event or the
   * user, otherwise the JSON object of the three numbers.
   */
  function QrValue(event: Option<EventRef>, user: Option<UserRef>, timestamp: nat): (v: string)
    ensures v == "" <==> event.None? || user.None?
  {
    if event.None? || user.None? then ""
    else Member(EventKey, event.value.id, Member(UserKey, user.value.id, Member(TimeKey, timestamp, "}")))
  }

  /** The run of digits at the front of `d + r` is exactly `d` when `r` starts with a non-digit. */
  lemma {:induction false} LeadingDigitsOf(d: string, r: string)
    requires forall i :: 0 <= i < |d| ==> IsDigit(d[i])
    requires r != [] && !IsDigit(r[0])
    ensures LeadingDigits(d + r) == |d|
  {
    if d == [] {
      assert d + r == r;
    } else {
      assert (d + r)[1..] == d[1..] + r;
      LeadingDigitsOf(d[1..], r);
    }
  }

  /** A member whose value is followed by a non-digit reads back as that value and that rest. */
  lemma MemberInjective(key: string, a: nat, r1: string, b: nat, r2: string)
    requires r1 != [] && !IsDigit(r1[0]) && r2 != [] && !IsDigit(r2[0])
    requires Member(key, a, r1) == Member(key, b, r2)
    ensures a == b && r1 == r2
  {
    var da, db := DecimalString(a), DecimalString(b);
    assert Member(key, a, r1)[|key|..] == da + r1;
    assert Member(key, b, r2)[|key|..] == db + r2;
    LeadingDigitsOf(da, r1);
    LeadingDigitsOf(db, r2);
    assert da == (da + r1)[..|da|];
    assert db == (db + r2)[..|db|];
    assert r1 == (da + r1)[|da|..];
    assert r2 == (db + r2)[|db|..];
    DigitsValueOfDecimal(a);
    DigitsValueOfDecimal(b);
  }

  /** Equal QR texts come from the same event, the same user and the same time stamp. */
  lemma QrValueInjective(e1: EventRef, u1: UserRef, t1: nat, e2: EventRef, u2: UserRef, t2: nat)
    requires QrValue(Some(e1), Some(u1), t1) == QrValue(Some(e2), Some(u2), t2)
    ensures e1 == e2 && u1 == u2 && t1 == t2
  {
    var tail1, tail2 := Member(TimeKey, t1, "}"), Member(TimeKey, t2, "}");
    var mid1, mid2 := Member(UserKey, u1.id, tail1), Member(UserKey, u2.id, tail2);
    assert UserKey[0] == ',' && TimeKey[0] == ',';
    MemberInjective(EventKey, e1.id, mid1, e2.id, mid2);
    MemberInjective(UserKey, u1.id, tail1, u2.id, tail2);
    MemberInjective(TimeKey, t1, "}", t2, "}");
  }

  // ---------------------------------------------------------------- countdown

  /** The interval's update of the countdown: 1 wraps round to 15, anything else steps down. */
  function NextCount(c: int): (next: int)
    ensures 1 <= c <= CountdownStart ==> 1 <= next <= CountdownStart
  {
    if c == 1 then CountdownStart else c - 1
  }

  /** The countdown after `n` ticks. */
  function Ticks(c: int, n: nat): int
    decreases n
  {
    if n == 0 then c else Ticks(NextCount(c), n - 1)
  }

  lemma {:induction false} TicksSplit(c: int, a: nat, b: nat)
    decreases a
    ensures Ticks(c, a + b) == Ticks(Ticks(c, a), b)
  {
    if a > 0 {
      TicksSplit(NextCount(c), a - 1, b);
    }
  }

  /** Before reaching 1 the countdown simply steps down. */
  lemma {:induction false} TicksDown(c: int, n: nat)
    decreases n
    requires n < c
    ensures Ticks(c, n) == c - n
  {
    if n > 0 {
      TicksDown(c - 1, n - 1);
    }
  }

  /** From any value in 1..15 the countdown is back where it started after 15 ticks. */
  lemma CountdownPeriod(c: int)
    requires 1 <= c <= CountdownStart
    ensures Ticks(c, 15) == c
  {
    TicksDown(c, c - 1);
    TicksSplit(c, c - 1, 1);
    TicksSplit(c, c, 15 - c);
    TicksDown(CountdownStart, 15 - c);
  }

  /** Among any 15 ticks from a value `c` in 1..15, exactly the `c`-th renews the QR text. */
  lemma RenewsOncePerCycle(c: int, k: nat)
    requires 1 <= c <= CountdownStart && k < 15
    ensures Ticks(c, k) == 1 <==> k == c - 1
  {
    if k < c {
      TicksDown(c, k);
    } else {
      TicksDown(c, c - 1);
      TicksSplit(c, c - 1, 1);
      TicksSplit(c, c, k - c);
      TicksDown(CountdownStart, k - c);
    }
  }

  /** The panel's state once the ticket's event is known. */
  class QrPanel {
    var event: Option<EventRef>
    var user: Option<UserRef>
    var qrValue: string
    var countdown: int

    /** The countdown always shows a value from 1 to 15. */
    predicate Valid()
      reads this
    {
      1 <= countdown <= CountdownStart
    }

    constructor (user: Option<UserRef>)
      ensures Valid()
      ensures this.user == user && event.None? && qrValue == "" && countdown == CountdownStart
    {
      this.user := user;
      event := None;
      qrValue := "";
      countdown := CountdownStart;
    }

    /** The event arrives: the QR text is generated at once; the countdown runs on. */
    method ShowEvent(e: EventRef, now: nat)
      modifies this
      requires Valid()
      ensures Valid()
      ensures event == Some(e) && qrValue == QrValue(Some(e), user, now)
      ensures user == old(user) && countdown == old(countdown)
    {
      event := Some(e);
      qrValue := QrValue(event, user, now);
    }

    /** One second passes. */
    method Tick(now: nat)
      modifies this
      requires Valid()
      ensures Valid()
      ensures countdown == NextCount(old(countdown))
      ensures old(countdown) == 1 ==> qrValue == QrValue(event, user, now)
      ensures old(countdown) != 1 ==> qrValue == old(qrValue)
      ensures event == old(event) && user == old(user)
    {
      if countdown == 1 {
        qrValue := QrValue(event, user, now);
        countdown := CountdownStart;
      } else {
        countdown := countdown - 1;
      }
    }
  }
}
