/** Redis key names and the string form of a job hash. */
module RedisKeys {
  import opened Jobs
  import opened Int64

  // ----- decimal numbers

  predicate IsDigit(c: char) {
    '0' <= c <= '9'
  }

  function Digits(n: nat): (s: string)
    ensures s != "" && forall i :: 0 <= i < |s| ==> IsDigit(s[i])
  {
    var last := [('0' as int + n % 10) as char];
    if n < 10 then last else Digits(n / 10) + last
  }

  /** strconv.Itoa */
  function Itoa(n: int): string {
    if n < 0 then "-" + Digits(-n) else Digits(n)
  }

  /** The value of a digit string read so far in acc; None at the first other character. */
  function Value(s: string): Option<nat> {
    if s == "" then Some(0)
    else
      var n := |s| - 1;
      match Value(s[..n])
      case None => None
      case Some(v) => if IsDigit(s[n]) then Some(10 * v + (s[n] as int - '0' as int)) else None
  }

  function Clamp(n: int): int {
    if n < MIN_INT64 then MIN_INT64 else if n > MAX_INT64 then MAX_INT64 else n
  }

  /** strconv.ParseInt(s, 10, 64) with its error dropped: 0 when malformed, clamped when out of range. */
  function ParseInt(s: string): int {
    var signed := s != "" && (s[0] == '-' || s[0] == '+');
    var body := if signed then s[1..] else s;
    if body == "" then 0
    else
      match Value(body)
      case None => 0
      case Some(v) => Clamp(if s[0] == '-' then -(v as int) else v)
  }

  lemma {:induction false} ValueOfDigits(n: nat)
    ensures Value(Digits(n)) == Some(n)
  {
    if n >= 10 {
      ValueOfDigits(n / 10);
      var s := Digits(n);
      assert s[..|s| - 1] == Digits(n / 10);
    } else {
      assert Digits(n)[..0] == "";
    }
  }

  /** Every integer's decimal form reads back as the integer, or as the nearest 64-bit one. */
  lemma ParseItoa(n: int)
    ensures ParseInt(Itoa(n)) == if n < -0x8000_0000_0000_0000 then -0x8000_0000_0000_0000
                                 else if n <= 0x7fff_ffff_ffff_ffff then n else 0x7fff_ffff_ffff_ffff
  {
    if n < 0 {
      ValueOfDigits(-n);
      assert Itoa(n)[1..] == Digits(-n);
    } else {
      ValueOfDigits(n);
      assert IsDigit(Digits(n)[0]);
    }
  }

  lemma ParsePlus(n: nat)
    ensures ParseInt("+" + Itoa(n)) == ParseInt(Itoa(n))
  {
    ValueOfDigits(n);
    assert IsDigit(Digits(n)[0]);
    assert ("+" + Itoa(n))[1..] == Digits(n);
  }

  /** A text that is not a number: no digits after the sign, or another character among them. */
  predicate Malformed(s: string) {
    var body := if s != "" && (s[0] == '-' || s[0] == '+') then s[1..] else s;
    body == "" || exists i :: 0 <= i < |body| && !(body[i] in "0123456789")
  }

  lemma {:induction false} ValueOfOther(s: string, i: nat)
    requires i < |s| && !(s[i] in "0123456789")
    ensures Value(s) == None
    decreases |s|
  {
    if i < |s| - 1 {
      ValueOfOther(s[..|s| - 1], i);
    }
  }

  /** ... reads as 0. */
  lemma MalformedIsZero(s: string)
    requires Malformed(s)
    ensures ParseInt(s) == 0
  {
    var body := if s != "" && (s[0] == '-' || s[0] == '+') then s[1..] else s;
    if body != "" {
      var i :| 0 <= i < |body| && !(body[i] in "0123456789");
      ValueOfOther(body, i);
    }
  }

  // ----- keys

  const KEY_PREFIX := "{goschedule}:"
  const PENDING_PREFIX := KEY_PREFIX + "pending:"
  const CLAIMED_KEY := KEY_PREFIX + "claimed"

  function PendingKey(queue: string, p: Priority): string {
    PENDING_PREFIX + queue + ":p" + Itoa(p)
  }

  /** Two digit strings after the same-looking key have the same length: 'p' is not a digit. */
  lemma SuffixLength(q1: string, d1: string, q2: string, d2: string)
    requires q1 + ":p" + d1 == q2 + ":p" + d2
    requires forall i :: 0 <= i < |d1| ==> IsDigit(d1[i])
    requires forall i :: 0 <= i < |d2| ==> IsDigit(d2[i])
    ensures |d1| >= |d2|
  {
    var s := q1 + ":p" + d1;
    assert s[|s| - |d1| - 1] == 'p';
    assert forall k :: |s| - |d2| <= k < |s| ==> IsDigit(s[k]);
  }

  /** No two (queue, priority) pairs share a ZSET, whatever characters the queue names hold. */
  lemma PendingKeyInjective(q1: string, p1: Priority, q2: string, p2: Priority)
    requires PendingKey(q1, p1) == PendingKey(q2, p2)
    ensures q1 == q2 && p1 == p2
  {
    var n := |PENDING_PREFIX|;
    var d1, d2 := Itoa(p1), Itoa(p2);
    var s1, s2 := q1 + ":p" + d1, q2 + ":p" + d2;
    assert PendingKey(q1, p1) == PENDING_PREFIX + s1;
    assert PendingKey(q2, p2) == PENDING_PREFIX + s2;
    assert PendingKey(q1, p1)[n..] == s1 && PendingKey(q2, p2)[n..] == s2;
    SuffixLength(q1, d1, q2, d2);
    SuffixLength(q2, d2, q1, d1);
    assert s1[..|q1|] == q1 && s2[..|q2|] == q2;
    assert s1[|q1| + 2..] == d1 && s2[|q2| + 2..] == d2;
    ParseItoa(p1);
    ParseItoa(p2);
  }

  lemma ClaimedKeyIsNotPending(q: string, p: Priority)
    ensures PendingKey(q, p) != CLAIMED_KEY
  {
    var n := |KEY_PREFIX|;
    assert PendingKey(q, p)[n] == 'p' && CLAIMED_KEY[n] == 'c';
  }

  // ----- times

  /** How numbers are written to and read from hash fields. */
  datatype NumberText = NumberText(format: int -> string, parse: string -> int) {
    /** Reading undoes writing on 64-bit integers. */
    ghost predicate Exact() {
      forall n :: IsInt64(n) ==> parse(format(n)) == n
    }
  }

  const STRCONV := NumberText(Itoa, ParseInt)

  lemma StrconvIsExact()
    ensures STRCONV.Exact()
  {
    forall n | IsInt64(n) ensures STRCONV.parse(STRCONV.format(n)) == n {
      ParseItoa(n);
    }
  }

  function FormatTime(c: NumberText, t: Time): string {
    if t == ZERO_TIME then c.format(0) else c.format(Wrap64(t))
  }

  function ParseTime(c: NumberText, s: string): Time {
    var n := c.parse(s);
    if n == 0 then ZERO_TIME else n
  }

  /** The zero time, or any time within 64-bit nanoseconds of the epoch except the epoch itself. */
  predicate Storable(t: Time) {
    t == ZERO_TIME || (IsInt64(t) && t != 0)
  }

  /** Exactly the storable times survive being stored. */
  lemma TimeRoundTripIff(c: NumberText, t: Time)
    requires c.Exact()
    ensures ParseTime(c, FormatTime(c, t)) == t <==> Storable(t)
  {
    assert c.parse(c.format(Wrap64(t))) == Wrap64(t) && c.parse(c.format(0)) == 0;
  }

  /** The epoch is one that does not: it comes back as the zero time. */
  lemma EpochIsLost(c: NumberText)
    requires c.Exact()
    ensures ParseTime(c, FormatTime(c, 0)) == ZERO_TIME != 0
  {
    assert c.parse(c.format(0)) == 0;
  }

  // ----- job hashes

  /** The field names of a job hash. */
  datatype HashField = IdField | QueueField | NameField | PayloadField | CodecField | PriorityField | RunAtField
    | AttemptField | MaxAttemptsField | StateField | TimeoutField | LockedByField | LockedUntilField
    | LastErrorField | RecurringIdField | CreatedAtField | UpdatedAtField

  type Hash = map<HashField, string>

  /** A field as a Go map lookup reads it: "" when missing. */
  function Field(h: Hash, name: HashField): string {
    if name in h then h[name] else ""
  }

  function StateNumber(s: State): nat {
    match s
    case Pending => 0
    case Claimed => 1
    case Succeeded => 2
    case Failed => 3
    case Cancelled => 4
  }

  /** The named state with this number; Go would carry any other number along. */
  function StateNamed(n: int): Option<State> {
    if n == 0 then Some(Pending)
    else if n == 1 then Some(Claimed)
    else if n == 2 then Some(Succeeded)
    else if n == 3 then Some(Failed)
    else if n == 4 then Some(Cancelled)
    else None
  }

  function SerializeJob(c: NumberText, j: Job): Hash {
    map[
      IdField := j.id,
      QueueField := j.queue,
      NameField := j.name,
      PayloadField := j.payload,
      CodecField := j.codecName,
      PriorityField := c.format(j.priority),
      RunAtField := FormatTime(c, j.runAt),
      AttemptField := c.format(j.attempt),
      MaxAttemptsField := c.format(j.maxAttempts),
      StateField := c.format(StateNumber(j.state)),
      TimeoutField := c.format(j.timeout),
      LockedByField := j.lockedBy,
      LockedUntilField := FormatTime(c, j.lockedUntil),
      LastErrorField := j.lastError,
      RecurringIdField := j.recurringId,
      CreatedAtField := FormatTime(c, j.createdAt),
      UpdatedAtField := FormatTime(c, j.updatedAt)]
  }

  /** A uint8 conversion keeps the low eight bits. */
  function DeserializeJob(c: NumberText, h: Hash): Option<Job> {
    match StateNamed(c.parse(Field(h, StateField)) % 256)
    case None => None
    case Some(state) =>
      Some(Job(
        Field(h, IdField), Field(h, QueueField), Field(h, NameField), Field(h, PayloadField), Field(h, CodecField),
        c.parse(Field(h, PriorityField)) % 256, ParseTime(c, Field(h, RunAtField)), c.parse(Field(h, AttemptField)),
        c.parse(Field(h, MaxAttemptsField)), state, c.parse(Field(h, TimeoutField)), Field(h, LockedByField),
        ParseTime(c, Field(h, LockedUntilField)), Field(h, LastErrorField), Field(h, RecurringIdField),
        ParseTime(c, Field(h, CreatedAtField)), ParseTime(c, Field(h, UpdatedAtField))))
  }

  /** A time as it comes back from storage. */
  function Stored(c: NumberText, t: Time): Time {
    ParseTime(c, FormatTime(c, t))
  }

  function WithStoredTimes(c: NumberText, j: Job): Job {
    j.(runAt := Stored(c, j.runAt), lockedUntil := Stored(c, j.lockedUntil),
       createdAt := Stored(c, j.createdAt), updatedAt := Stored(c, j.updatedAt))
  }

  lemma StateRoundTrip(s: State)
    ensures StateNamed(StateNumber(s)) == Some(s)
  {
  }

  /** The hash h reads back as job j, field by field. */
  ghost predicate NumbersReadAs(c: NumberText, h: Hash, j: Job) {
    && c.parse(Field(h, PriorityField)) == j.priority
    && c.parse(Field(h, AttemptField)) == j.attempt && c.parse(Field(h, MaxAttemptsField)) == j.maxAttempts
    && c.parse(Field(h, StateField)) == StateNumber(j.state) && c.parse(Field(h, TimeoutField)) == j.timeout
  }

  ghost predicate TextsReadAs(h: Hash, j: Job) {
    && Field(h, IdField) == j.id && Field(h, QueueField) == j.queue && Field(h, NameField) == j.name
    && Field(h, PayloadField) == j.payload && Field(h, CodecField) == j.codecName
    && Field(h, LockedByField) == j.lockedBy
    && Field(h, LastErrorField) == j.lastError && Field(h, RecurringIdField) == j.recurringId
  }

  ghost predicate TimesReadAs(c: NumberText, h: Hash, j: Job) {
    && ParseTime(c, Field(h, RunAtField)) == j.runAt && ParseTime(c, Field(h, LockedUntilField)) == j.lockedUntil
    && ParseTime(c, Field(h, CreatedAtField)) == j.createdAt && ParseTime(c, Field(h, UpdatedAtField)) == j.updatedAt
  }

  lemma ReadsAsJob(c: NumberText, h: Hash, j: Job)
    requires NumbersReadAs(c, h, j) && TextsReadAs(h, j) && TimesReadAs(c, h, j)
    ensures DeserializeJob(c, h) == Some(j)
  {
    StateRoundTrip(j.state);
  }

  lemma NumbersBack(c: NumberText, j: Job)
    requires c.Exact() && IsInt64(j.attempt) && IsInt64(j.maxAttempts) && IsInt64(j.timeout)
    ensures NumbersReadAs(c, SerializeJob(c, j), j)
  {
  }

  lemma TextsBack(c: NumberText, j: Job)
    ensures TextsReadAs(SerializeJob(c, j), j)
  {
  }

  lemma TimesBack(c: NumberText, j: Job)
    ensures TimesReadAs(c, SerializeJob(c, j), WithStoredTimes(c, j))
  {
  }

  /** Reading a job back returns it unchanged exactly when its times are storable. */
  lemma JobRoundTripIff(c: NumberText, j: Job)
    requires c.Exact() && IsInt64(j.attempt) && IsInt64(j.maxAttempts) && IsInt64(j.timeout)
    ensures DeserializeJob(c, SerializeJob(c, j)) == Some(j)
       <==> Storable(j.runAt) && Storable(j.lockedUntil) && Storable(j.createdAt) && Storable(j.updatedAt)
  {
    NumbersBack(c, j);
    TextsBack(c, j);
    TimesBack(c, j);
    ReadsAsJob(c, SerializeJob(c, j), WithStoredTimes(c, j));
    TimeRoundTripIff(c, j.runAt);
    TimeRoundTripIff(c, j.lockedUntil);
    TimeRoundTripIff(c, j.createdAt);
    TimeRoundTripIff(c, j.updatedAt);
  }

  /** The names and numbers that stored data depends on. */
  lemma StoredNames(queue: string)
    ensures PendingKey(queue, 1) == "{goschedule}:pending:" + queue + ":p1" && CLAIMED_KEY == "{goschedule}:claimed"
    ensures Itoa(StateNumber(Pending)) == "0" && Itoa(StateNumber(Claimed)) == "1"
    ensures Itoa(StateNumber(Succeeded)) == "2" && Itoa(StateNumber(Failed)) == "3"
    ensures Itoa(StateNumber(Cancelled)) == "4"
  {
    assert Digits(1) == "1";
  }

  /** The pending key that recoverStaleScript puts together from a hash's own fields. */
  function RecoveredKey(h: Hash): string {
    PENDING_PREFIX + Field(h, QueueField) + ":p" + Field(h, PriorityField)
  }

  /** The pending key that Fail, Cancel and Reschedule build from the fields they look up. */
  function LookedUpKey(h: Hash): string {
    PendingKey(Field(h, QueueField), ParseInt(Field(h, PriorityField)) % 256)
  }

  /** Both are the job's own key, even after a script has rewritten other fields of its hash. */
  lemma ScriptKeys(j: Job, h: Hash)
    requires Field(h, QueueField) == Field(SerializeJob(STRCONV, j), QueueField)
    requires Field(h, PriorityField) == Field(SerializeJob(STRCONV, j), PriorityField)
    ensures RecoveredKey(h) == PendingKey(j.queue, j.priority) == LookedUpKey(h)
  {
    ParseItoa(j.priority);
  }
}
