/** The admin prayer-session screen: the session table with live
    participant counts, the create form, and the Start/End buttons that move
    a session from scheduled to active to ended. The database's answers are
    parameters; the writes are kept in a log. */
module PrayerSessionAdmin {
  import opened Js
  import opened Ui
  import opened Text
  import opened Schema

  // -------------------------------------------------------------------
  // parseInt
  // -------------------------------------------------------------------

  /** The string with its leading whitespace removed, as `parseInt` skips it. */
  function TrimStart(s: string): (r: string)
    ensures |r| <= |s| && r == s[|s| - |r|..]
    ensures r != [] ==> !IsJsWhitespace(r[0])
  {
    if s != [] && IsJsWhitespace(s[0]) then TrimStart(s[1..]) else s
  }

  /** The longest run of decimal digits at the start of `s`. */
  function DigitRun(s: string): (r: string)
    ensures StartsWith(s, r)
    ensures forall i :: 0 <= i < |r| ==> IsDigit(r[i])
    ensures |r| < |s| ==> !IsDigit(s[|r|])
  {
    if s == [] || !IsDigit(s[0]) then [] else [s[0]] + DigitRun(s[1..])
  }

  /** The value of the digit run at the start of `body`, or NaN (`None`)
      when `body` does not start with a digit. */
  function LeadingDigits(body: string): (r: Option<nat>)
    ensures r.None? <==> body == [] || !IsDigit(body[0])
  {
    var digits := DigitRun(body);
    if digits == [] then None else Some(ParseDecimal(digits))
  }

  /** `parseInt(s)` for decimal text: leading whitespace, an optional sign,
      then the digits up to the first non-digit; no digits gives NaN
      (`None`). */
  function ParseInt(s: string): (r: Option<int>)
  {
    var t := TrimStart(s);
    if t != [] && t[0] == '-' then
      match LeadingDigits(t[1..])
      case Some(m) => Some(-(m as int))
      case None => None
    else if t != [] && t[0] == '+' then
      match LeadingDigits(t[1..])
      case Some(m) => Some(m as int)
      case None => None
    else
      match LeadingDigits(t)
      case Some(m) => Some(m as int)
      case None => None
  }

  lemma {:induction false} DigitRunAll(s: string)
    requires forall i :: 0 <= i < |s| ==> IsDigit(s[i])
    ensures DigitRun(s) == s
  {
    if s != [] {
      DigitRunAll(s[1..]);
    }
  }

  /** The decimal text of a number starts with a digit and reads back as it. */
  lemma LeadingDigitsOfNat(n: nat)
    ensures IsDigit(NatToString(n)[0])
    ensures LeadingDigits(NatToString(n)) == Some(n)
  {
    DigitRunAll(NatToString(n));
    ParseNatToString(n);
  }

  /** Every integer reads back from its own decimal text. */
  lemma {:induction false} ParseIntOfInt(i: int)
    ensures ParseInt(IntToString(i)) == Some(i)
  {
    if i >= 0 {
      ParseIntOfNat(i);
    } else {
      ParseIntOfNegative(i);
    }
  }

  /** A non-negative number is its digits alone. */
  lemma {:induction false} ParseIntOfNat(i: int)
    requires i >= 0
    ensures ParseInt(IntToString(i)) == Some(i)
  {
    var s := NatToString(i);
    assert IntToString(i) == s;
    LeadingDigitsOfNat(i);
    ParseIntUnsigned(s);
  }

  /** A negative number is a minus sign before the digits of its magnitude. */
  lemma {:induction false} ParseIntOfNegative(i: int)
    requires i < 0
    ensures ParseInt(IntToString(i)) == Some(i)
  {
    var n: nat := -i;
    var s := NatToString(n);
    assert IntToString(i) == "-" + s;
    LeadingDigitsOfNat(n);
    ParseIntMinus(s);
    assert -(n as int) == i;
  }

  /** Text without leading whitespace is its own trimmed start. */
  lemma TrimStartNoSpace(s: string)
    requires s == [] || !IsJsWhitespace(s[0])
    ensures TrimStart(s) == s
  {
  }

  /** Text that starts with a digit reads as its leading digits. */
  lemma ParseIntUnsigned(s: string)
    requires s != [] && IsDigit(s[0])
    ensures ParseInt(s) == Some(LeadingDigits(s).value as int)
  {
    TrimStartNoSpace(s);
  }

  /** A minus sign before a digit reads as minus the leading digits. */
  lemma ParseIntMinus(s: string)
    requires s != [] && IsDigit(s[0])
    ensures ParseInt("-" + s) == Some(-(LeadingDigits(s).value as int))
  {
    var t := "-" + s;
    TrimStartNoSpace(t);
    assert t[1..] == s;
  }

  /** Text that does not start with a digit, a sign or a space is NaN. */
  lemma ParseIntNaN(junk: string)
    requires junk == [] || (!IsDigit(junk[0]) && !IsJsWhitespace(junk[0]) && junk[0] != '-' && junk[0] != '+')
    ensures ParseInt(junk).None?
  {
    assert TrimStart(junk) == junk;
  }

  /** The Max Participants field: `parseInt(value) || 100`. */
  function MaxParticipantsInput(value: string): (r: int)
    ensures r != 0
  {
    match ParseInt(value)
    case Some(n) => if n != 0 then n else 100
    case None => 100
  }

  /** An empty field, a zero and text without digits all give 100; any other
      number typed as such is kept. */
  lemma MaxParticipantsDefaults(i: int, junk: string)
    requires junk == [] || (!IsDigit(junk[0]) && !IsJsWhitespace(junk[0]) && junk[0] != '-' && junk[0] != '+')
    ensures MaxParticipantsInput(junk) == 100
    ensures MaxParticipantsInput(IntToString(0)) == 100
    ensures i != 0 ==> MaxParticipantsInput(IntToString(i)) == i
  {
    ParseIntNaN(junk);
    ParseIntOfInt(0);
    ParseIntOfInt(i);
  }

  // -------------------------------------------------------------------
  // The session table
  // -------------------------------------------------------------------

  datatype SessionAction = StartSession | EndSession

  /** The buttons of a row. */
  function Offered(s: PrayerSession): (r: set<SessionAction>)
    ensures StartSession in r <==> s.status == Scheduled
    ensures EndSession in r <==> s.status == Active
  {
    (if s.status == Scheduled then {StartSession} else {}) + (if s.status == Active then {EndSession} else {})
  }

  /** The status each button writes. */
  function StatusWritten(a: SessionAction): PrayerSessionStatus {
    match a
    case StartSession => Active
    case EndSession => Ended
  }

  /** The lifecycle of a session: scheduled, active, ended. */
  predicate Advances(before: PrayerSessionStatus, after: PrayerSessionStatus) {
    (before == Scheduled && after == Active) || (before == Active && after == Ended)
  }

  /** Every offered button advances its session one step; an ended session
      offers nothing. */
  lemma OfferedAdvance(s: PrayerSession)
    ensures forall a :: a in Offered(s) ==> Advances(s.status, StatusWritten(a))
    ensures s.status == Ended ==> Offered(s) == {}
  {
  }

  /** `participantCounts[session.id] || 0`. */
  function ShownCount(counts: map<string, nat>, id: string): (n: nat)
    ensures id !in counts ==> n == 0
    ensures id in counts ==> n == counts[id]
  {
    if id in counts then counts[id] else 0
  }

  /** The counting loop of `fetchSessions`: one count query per session,
      a missing count stored as 0. */
  method CountParticipants(sessions: seq<PrayerSession>, countFor: string -> Option<nat>) returns (counts: map<string, nat>)
    ensures forall id :: id in counts <==> exists s :: s in sessions && s.id == id
    ensures forall id :: id in counts ==> counts[id] == countFor(id).GetOr(0)
  {
    counts := map[];
    for i := 0 to |sessions|
      invariant forall id :: id in counts <==> exists k :: 0 <= k < i && sessions[k].id == id
      invariant forall id :: id in counts ==> counts[id] == countFor(id).GetOr(0)
    {
      counts := counts[sessions[i].id := countFor(sessions[i].id).GetOr(0)];
    }
    forall id | id in counts
      ensures exists s :: s in sessions && s.id == id
    {
      var k :| 0 <= k < |sessions| && sessions[k].id == id;
      assert sessions[k] in sessions;
    }
  }

  /** The create form. */
  datatype SessionForm = SessionForm(title: string, description: string, scheduledAt: string, maxParticipants: int)

  const EmptySessionForm := SessionForm("", "", "", 100)

  /** The writes to `prayer_sessions`. A status update carries the
      timestamp columns it sends: `started_at` when a session starts,
      `ended_at` when it ends (None: the column is not in the update). */
  datatype SessionWrite =
    | InsertSession(title: string, description: string, scheduledAt: Option<string>, maxParticipants: int,
                    createdBy: Option<string>, status: PrayerSessionStatus)
    | SetSessionStatus(id: string, status: PrayerSessionStatus, startedAt: Option<int>, endedAt: Option<int>)

  class SessionAdmin {
    var sessions: seq<PrayerSession>
    var participantCounts: map<string, nat>
    var newSession: SessionForm
    var showCreateDialog: bool
    var loading: bool
    var writes: seq<SessionWrite>
    var toasts: seq<Toast>

    constructor ()
      ensures sessions == [] && participantCounts == map[] && newSession == EmptySessionForm
      ensures !showCreateDialog && loading && writes == [] && toasts == []
    {
      sessions, participantCounts, newSession := [], map[], EmptySessionForm;
      showCreateDialog, loading, writes, toasts := false, true, [], [];
    }

    /** `fetchSessions` with the sessions query's answer and each count
        query's answer. */
    method FetchSessions(result: Attempt<seq<PrayerSession>>, countFor: string -> Option<nat>)
      modifies this
      ensures result.Fail? ==>
        sessions == old(sessions) && participantCounts == old(participantCounts)
        && toasts == old(toasts) + [Toast("Error", "Failed to fetch sessions", true)]
      ensures result.Ok? ==>
        sessions == result.value && toasts == old(toasts)
        && (forall id :: id in participantCounts <==> exists s :: s in sessions && s.id == id)
        && (forall s :: s in sessions ==> ShownCount(participantCounts, s.id) == countFor(s.id).GetOr(0))
      ensures !loading && newSession == old(newSession) && showCreateDialog == old(showCreateDialog)
      ensures writes == old(writes)
    {
      if result.Fail? {
        toasts := toasts + [Toast("Error", "Failed to fetch sessions", true)];
      } else {
        sessions := result.value;
        participantCounts := CountParticipants(result.value, countFor);
      }
      loading := false;
    }

    /** Typing in the Max Participants field. */
    method SetMaxParticipants(value: string)
      modifies this
      ensures newSession == old(newSession).(maxParticipants := MaxParticipantsInput(value))
      ensures sessions == old(sessions) && participantCounts == old(participantCounts)
      ensures showCreateDialog == old(showCreateDialog) && loading == old(loading)
      ensures writes == old(writes) && toasts == old(toasts)
    {
      newSession := newSession.(maxParticipants := MaxParticipantsInput(value));
    }

    /** `createSession`: a blank title is refused; otherwise a scheduled
        session is inserted, an empty date as null, and on success the form
        is reset. */
    method CreateSession(userId: Option<string>, result: WriteOutcome)
      modifies this
      ensures IsBlank(old(newSession.title)) ==>
        writes == old(writes) && newSession == old(newSession) && showCreateDialog == old(showCreateDialog)
        && toasts == old(toasts) + [Toast("Error", "Title is required", true)]
      ensures !IsBlank(old(newSession.title)) ==>
        writes == old(writes) + [InsertSession(old(newSession.title), old(newSession.description),
                                               OrNull(old(newSession.scheduledAt)), old(newSession.maxParticipants),
                                               userId, Scheduled)]
      ensures !IsBlank(old(newSession.title)) && result.WriteFailed? ==>
        newSession == old(newSession) && showCreateDialog == old(showCreateDialog)
        && toasts == old(toasts) + [Toast("Error", "Failed to create session", true)]
      ensures !IsBlank(old(newSession.title)) && result.Written? ==>
        newSession == EmptySessionForm && !showCreateDialog
        && toasts == old(toasts) + [Toast("Success", "Prayer session created", false)]
      ensures sessions == old(sessions) && participantCounts == old(participantCounts) && loading == old(loading)
    {
      if IsBlank(newSession.title) {
        toasts := toasts + [Toast("Error", "Title is required", true)];
        return;
      }
      writes := writes + [InsertSession(newSession.title, newSession.description, OrNull(newSession.scheduledAt),
                                        newSession.maxParticipants, userId, Scheduled)];
      if result.WriteFailed? {
        toasts := toasts + [Toast("Error", "Failed to create session", true)];
      } else {
        toasts := toasts + [Toast("Success", "Prayer session created", false)];
        showCreateDialog := false;
        newSession := EmptySessionForm;
      }
    }

    /** The Start and End buttons at time `now`: `startSession` /
        `endSession`, each stamping its own column. */
    method Act(s: PrayerSession, a: SessionAction, now: int, result: WriteOutcome)
      modifies this
      ensures writes == old(writes) + [SetSessionStatus(s.id, StatusWritten(a),
        if a == StartSession then Some(now) else None, if a == EndSession then Some(now) else None)]
      ensures toasts == old(toasts) + [
        match (a, result)
        case (StartSession, Written) => Toast("Started", "Prayer session is now active", false)
        case (StartSession, WriteFailed(_)) => Toast("Error", "Failed to start session", true)
        case (EndSession, Written) => Toast("Ended", "Prayer session has ended", false)
        case (EndSession, WriteFailed(_)) => Toast("Error", "Failed to end session", true)]
      ensures sessions == old(sessions) && participantCounts == old(participantCounts)
      ensures newSession == old(newSession) && showCreateDialog == old(showCreateDialog) && loading == old(loading)
    {
      writes := writes + [SetSessionStatus(s.id, StatusWritten(a),
        if a == StartSession then Some(now) else None, if a == EndSession then Some(now) else None)];
      var t := match (a, result)
        case (StartSession, Written) => Toast("Started", "Prayer session is now active", false)
        case (StartSession, WriteFailed(_)) => Toast("Error", "Failed to start session", true)
        case (EndSession, Written) => Toast("Ended", "Prayer session has ended", false)
        case (EndSession, WriteFailed(_)) => Toast("Error", "Failed to end session", true);
      toasts := toasts + [t];
    }
  }
}
