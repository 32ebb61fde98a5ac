/** Voice commands (frontend/components/VoiceCommand.tsx): the ordered
    classifier `processCommand`, the log-entry pattern it matches, and the
    panel's listening state. Speech recognition itself delivers the
    transcripts as inputs. */
module Voice {
  import opened Wrappers
  import opened Strings
  import opened Calendar

  /** What `onCommand` receives besides the transcript: the action name and
      its data. */
  datatype Action =
    | Navigate(page: string)
    | RunForecast
    | LogEntry(prepared: int, item: string, sold: int)
    | Help
    | ChatQuery(message: string)

  /** One `onCommand(text, action, data)` call. */
  datatype Command = Command(text: string, action: Action)

  /** `text.toLowerCase().trim()` */
  function Normalize(text: string): string
  {
    Trim(ToLower(text))
  }

  // ---------------------------------------------------------------------
  // The log-entry pattern /log (\d+) (.+?) prepared.* (\d+) sold/i

  /** The characters `.` does not match. */
  predicate IsLineTerminator(c: char)
  {
    c == '\n' || c == '\r' || c == '\U{2028}' || c == '\U{2029}'
  }

  predicate AllDigits(s: string, x: int, y: int)
  {
    forall k :: x <= k < y && 0 <= k < |s| ==> IsDigit(s[k])
  }

  predicate NoTerminator(s: string, x: int, y: int)
  {
    forall k :: x <= k < y && 0 <= k < |s| ==> !IsLineTerminator(s[k])
  }

  /** The pattern matches s as: `log ` at i, the first number in s[i+4..a],
      a space, the item in s[a+1..b], ` prepared` at b, any filler up to c,
      a space at c, the second number in s[c+1..e] and ` sold` at e. */
  predicate LogMatchAt(s: string, i: int, a: int, b: int, c: int, e: int)
  {
    0 <= i && i + 4 < a && a + 1 < b && b + 9 <= c && c + 1 < e && e + 5 <= |s|
    && OccursAt(s, "log ", i) && AllDigits(s, i + 4, a) && s[a] == ' '
    && NoTerminator(s, a + 1, b) && OccursAt(s, " prepared", b)
    && NoTerminator(s, b + 9, c) && s[c] == ' ' && AllDigits(s, c + 1, e) && OccursAt(s, " sold", e)
  }

  /** Where the run of digits starting at k ends. */
  function DigitRunEnd(s: string, k: nat): (e: nat)
    requires k <= |s|
    ensures k <= e <= |s| && AllDigits(s, k, e) && (e == |s| || !IsDigit(s[e]))
    decreases |s| - k
  {
    if k < |s| && IsDigit(s[k]) then DigitRunEnd(s, k + 1) else k
  }

  /** A digit run followed by a non-digit ends where DigitRunEnd says. */
  lemma DigitRunUnique(s: string, k: nat, e: int)
    requires k <= e < |s| && AllDigits(s, k, e) && !IsDigit(s[e])
    ensures DigitRunEnd(s, k) == e
    decreases e - k
  {
    if k < e {
      DigitRunUnique(s, k + 1, e);
    }
  }

  /** With ` prepared` at b, the filler may end at c: a space, a number and
      ` sold` follow. */
  predicate TailOk(s: string, b: int, c: int)
  {
    0 <= b && b + 9 <= c < |s| && NoTerminator(s, b + 9, c) && s[c] == ' '
    && var e := DigitRunEnd(s, c + 1); c + 1 < e && OccursAt(s, " sold", e)
  }

  /** The greedy `.*`: the last filler end at or below c. */
  function LastTail(s: string, b: int, c: int): (r: Option<int>)
    ensures r.Some? ==> (r.value <= c && TailOk(s, b, r.value)
      && forall c' :: r.value < c' <= c ==> !TailOk(s, b, c'))
    ensures r.None? ==> forall c' :: c' <= c ==> !TailOk(s, b, c')
    decreases c - b
  {
    if c < b + 9 then None
    else if TailOk(s, b, c) then Some(c)
    else LastTail(s, b, c - 1)
  }

  /** The item may end at b: no line break in it, ` prepared` and a tail
      follow. */
  predicate ItemOk(s: string, a: int, b: int)
  {
    0 <= a && a + 1 < b && NoTerminator(s, a + 1, b) && OccursAt(s, " prepared", b)
    && LastTail(s, b, |s| - 1).Some?
  }

  /** The lazy `.+?`: the first item end at or above b. */
  function FirstItemEnd(s: string, a: int, b: int): (r: Option<int>)
    ensures r.Some? ==> (b <= r.value && ItemOk(s, a, r.value)
      && forall b' :: b <= b' < r.value ==> !ItemOk(s, a, b'))
    ensures r.None? ==> forall b' :: b <= b' ==> !ItemOk(s, a, b')
    decreases |s| - b
  {
    if b > |s| then None
    else if ItemOk(s, a, b) then Some(b)
    else FirstItemEnd(s, a, b + 1)
  }

  /** A match can start at i. */
  predicate StartOk(s: string, i: int)
  {
    0 <= i && OccursAt(s, "log ", i)
    && var a := DigitRunEnd(s, i + 4);
    i + 4 < a < |s| && s[a] == ' ' && FirstItemEnd(s, a, a + 2).Some?
  }

  /** The leftmost start at or above i. */
  function FirstStart(s: string, i: nat): (r: Option<int>)
    ensures r.Some? ==> (i <= r.value && StartOk(s, r.value)
      && forall i' :: i <= i' < r.value ==> !StartOk(s, i'))
    ensures r.None? ==> forall i' :: i <= i' ==> !StartOk(s, i')
    decreases |s| - i
  {
    if i > |s| then None
    else if StartOk(s, i) then Some(i)
    else FirstStart(s, i + 1)
  }

  /** The positions of a match. */
  datatype Span = Span(i: int, a: int, b: int, c: int, e: int)

  /** `s.match(pattern)`: the match the backtracking engine returns. */
  function FindLogMatch(s: string): (r: Option<Span>)
    ensures r.Some? ==> LogMatchAt(s, r.value.i, r.value.a, r.value.b, r.value.c, r.value.e)
  {
    match FirstStart(s, 0)
    case None => None
    case Some(i) => Some(MatchFrom(s, i))
  }

  /** The match the engine completes from a start: the lazy item, then the
      greedy filler. */
  function MatchFrom(s: string, i: int): (m: Span)
    requires StartOk(s, i)
    ensures m.i == i && LogMatchAt(s, i, m.a, m.b, m.c, m.e)
  {
    var a := DigitRunEnd(s, i + 4);
    var b := FirstItemEnd(s, a, a + 2).value;
    var c := LastTail(s, b, |s| - 1).value;
    PiecesMatch(s, i, b, c);
    Span(i, a, b, c, DigitRunEnd(s, c + 1))
  }

  /** The checks the search makes add up to a match. */
  lemma PiecesMatch(s: string, i: int, b: int, c: int)
    requires StartOk(s, i) && ItemOk(s, DigitRunEnd(s, i + 4), b) && TailOk(s, b, c)
    ensures LogMatchAt(s, i, DigitRunEnd(s, i + 4), b, c, DigitRunEnd(s, c + 1))
  {
  }

  /** A match at the given positions is exactly what the search checks. */
  lemma MatchAtParts(s: string, i: int, a: int, b: int, c: int, e: int)
    requires LogMatchAt(s, i, a, b, c, e)
    ensures a == DigitRunEnd(s, i + 4) && e == DigitRunEnd(s, c + 1)
    ensures TailOk(s, b, c) && c <= |s| - 1
  {
    DigitRunUnique(s, i + 4, a);
    assert s[e] == ' ';
    DigitRunUnique(s, c + 1, e);
  }

  /** Every match passes the checks the search makes. */
  lemma MatchIsFound(s: string, i: int, a: int, b: int, c: int, e: int)
    requires LogMatchAt(s, i, a, b, c, e)
    ensures StartOk(s, i) && ItemOk(s, a, b) && TailOk(s, b, c) && a == DigitRunEnd(s, i + 4)
    ensures c <= |s| - 1
  {
    MatchAtParts(s, i, a, b, c, e);
    assert LastTail(s, b, |s| - 1).Some?;
    assert ItemOk(s, a, b);
    assert FirstItemEnd(s, a, a + 2).Some?;
  }

  /** The search finds a match whenever the pattern matches, and what it
      finds is the match a backtracking engine returns: the leftmost start,
      then the shortest item, then the longest filler. */
  lemma FindLogMatchSpec(s: string)
    ensures FindLogMatch(s).None? ==> forall i, a, b, c, e :: !LogMatchAt(s, i, a, b, c, e)
    ensures FindLogMatch(s).Some? ==>
      var m := FindLogMatch(s).value;
      LogMatchAt(s, m.i, m.a, m.b, m.c, m.e)
      && (forall i, a, b, c, e :: LogMatchAt(s, i, a, b, c, e) ==> m.i <= i)
      && (forall a, b, c, e :: LogMatchAt(s, m.i, a, b, c, e) ==> m.b <= b)
      && (forall c, e :: LogMatchAt(s, m.i, m.a, m.b, c, e) ==> c <= m.c)
  {
    forall i, a, b, c, e | LogMatchAt(s, i, a, b, c, e)
      ensures FindLogMatch(s).Some?
      ensures var m := FindLogMatch(s).value;
        m.i <= i && (i == m.i ==> m.b <= b) && (i == m.i && a == m.a && b == m.b ==> c <= m.c)
    {
      FoundBeatsMatch(s, i, a, b, c, e);
    }
  }

  /** Any match is found, and is no further left, no shorter in its item and
      no longer in its filler than what the search returns. */
  lemma FoundBeatsMatch(s: string, i: int, a: int, b: int, c: int, e: int)
    requires LogMatchAt(s, i, a, b, c, e)
    ensures FindLogMatch(s).Some?
    ensures var m := FindLogMatch(s).value;
      m.i <= i && (i == m.i ==> m.b <= b) && (i == m.i && a == m.a && b == m.b ==> c <= m.c)
  {
    MatchIsFound(s, i, a, b, c, e);
    var i0 := FirstStart(s, 0).value;
    assert i0 <= i;
    var a0 := DigitRunEnd(s, i0 + 4);
    var b0 := FirstItemEnd(s, a0, a0 + 2).value;
    var c0 := LastTail(s, b0, |s| - 1).value;
    var m := FindLogMatch(s).value;
    assert m.i == i0 && m.a == a0 && m.b == b0 && m.c == c0;
    if i == i0 {
      assert b0 <= b;
      if b == b0 {
        assert c <= c0;
      }
    }
  }

  /** The decimal value of a digit string, as `parseInt` reads it. */
  function ParseDigits(t: string): (n: int)
    ensures 0 <= n < Pow10(|t|)
  {
    DigitsNumberBounds(t);
    DigitsNumber(t)
  }

  /** The action of a log-entry match: the two numbers and the item as
      captured from the lower-cased text. */
  function LogAction(s: string, m: Span): Action
    requires 0 <= m.i + 4 <= m.a < m.a + 1 <= m.b <= m.c < m.c + 1 <= m.e <= |s|
  {
    LogEntry(ParseDigits(s[m.i + 4..m.a]), s[m.a + 1..m.b], ParseDigits(s[m.c + 1..m.e]))
  }

  // ---------------------------------------------------------------------
  // processCommand

  /** The rules on the lower-cased, trimmed text; the first that applies
      decides. */
  function Decide(lower: string, text: string): (a: Action)
    ensures a.Navigate? ==> a.page in ["dashboard", "forecaster", "analytics", "history"]
    ensures a.ChatQuery? ==> a.message == text
    ensures a.LogEntry? ==> FindLogMatch(lower).Some? && a == LogAction(lower, FindLogMatch(lower).value)
  {
    if Contains(lower, "dashboard") then Navigate("dashboard")
    else if Contains(lower, "forecast") && !Contains(lower, "run") then Navigate("forecaster")
    else if Contains(lower, "analytics") then Navigate("analytics")
    else if Contains(lower, "history") then Navigate("history")
    else if Contains(lower, "run") && Contains(lower, "forecast") then RunForecast
    else
      match FindLogMatch(lower)
      case Some(m) => LogAction(lower, m)
      case None =>
        if Contains(lower, "help") then Help
        else ChatQuery(text)
  }

  /** The classifier `processCommand` applies. */
  function Classify(text: string): (c: Command)
    ensures c.text == text
  {
    Command(text, Decide(Normalize(text), text))
  }

  /** A text navigates exactly when it mentions a page, and to the first
      page in the order dashboard, forecast (without "run"), analytics,
      history. */
  lemma NavigateRule(lower: string, text: string)
    ensures Decide(lower, text).Navigate? <==>
      Contains(lower, "dashboard") || (Contains(lower, "forecast") && !Contains(lower, "run"))
      || Contains(lower, "analytics") || Contains(lower, "history")
    ensures Contains(lower, "dashboard") ==> Decide(lower, text) == Navigate("dashboard")
  {
  }

  /** "run" and "forecast" run the forecast, unless a page was named first;
      a text that mentions "forecast" and gets past the page checks always
      runs it. */
  lemma RunForecastRule(lower: string, text: string)
    ensures Decide(lower, text) == RunForecast <==>
      Contains(lower, "forecast") && Contains(lower, "run")
      && !Contains(lower, "dashboard") && !Contains(lower, "analytics") && !Contains(lower, "history")
  {
  }

  /** The log pattern is tried only when no earlier rule applied, and then
      carries the two numbers and the item of the match. */
  lemma LogEntryRule(lower: string, text: string)
    ensures Decide(lower, text).LogEntry? <==>
      !Contains(lower, "dashboard") && !Contains(lower, "forecast") && !Contains(lower, "analytics")
      && !Contains(lower, "history") && FindLogMatch(lower).Some?
    ensures Decide(lower, text).LogEntry? ==>
      var m := FindLogMatch(lower).value;
      LogMatchAt(lower, m.i, m.a, m.b, m.c, m.e)
      && Decide(lower, text) == LogEntry(ParseDigits(lower[m.i + 4..m.a]), lower[m.a + 1..m.b], ParseDigits(lower[m.c + 1..m.e]))
  {
    var m := FindLogMatch(lower);
    if m.Some? && !Contains(lower, "dashboard") && !Contains(lower, "forecast") && !Contains(lower, "analytics")
      && !Contains(lower, "history") {
      assert Decide(lower, text) == LogAction(lower, m.value);
    }
  }

  /** What no rule claims goes to the assistant with the text as it was
      heard, not lower-cased; "help" is the last keyword tried. */
  lemma ChatRule(lower: string, text: string)
    ensures Decide(lower, text).ChatQuery? <==>
      !Contains(lower, "dashboard") && !Contains(lower, "forecast") && !Contains(lower, "analytics")
      && !Contains(lower, "history") && FindLogMatch(lower).None? && !Contains(lower, "help")
    ensures Decide(lower, text).ChatQuery? ==> Decide(lower, text).message == text
    ensures Decide(lower, text) == Help <==>
      !Contains(lower, "dashboard") && !Contains(lower, "forecast") && !Contains(lower, "analytics")
      && !Contains(lower, "history") && FindLogMatch(lower).None? && Contains(lower, "help")
  {
  }

  /** Only the assistant's message depends on the text as heard; every
      other outcome depends on the lower-cased, trimmed text alone. */
  lemma DecideIgnoresText(lower: string, text: string, other: string)
    ensures Decide(lower, text).ChatQuery? <==> Decide(lower, other).ChatQuery?
    ensures !Decide(lower, text).ChatQuery? ==> Decide(lower, text) == Decide(lower, other)
  {
  }

  /** Upper case and surrounding white space make no difference. */
  lemma ClassifyIgnoresCase(text: string, other: string)
    requires Normalize(text) == Normalize(other)
    ensures Classify(text).action.ChatQuery? <==> Classify(other).action.ChatQuery?
    ensures !Classify(text).action.ChatQuery? ==> Classify(text).action == Classify(other).action
  {
    DecideIgnoresText(Normalize(text), text, other);
  }

  /** The message for a log-entry match: the two digit runs as heard and
      the item, which read back as the logged counts and item. */
  function LoggedMessage(s: string, m: Span): (r: string)
    requires 0 <= m.i + 4 <= m.a < m.a + 1 <= m.b <= m.c < m.c + 1 <= m.e <= |s|
    ensures var a := LogAction(s, m);
      exists p, q ::
        ParseDigits(p) == a.prepared && ParseDigits(q) == a.sold
        && r == "\U{2705} Logged: " + p + " " + a.item + " prepared, " + q + " sold"
  {
    var p, q := s[m.i + 4..m.a], s[m.c + 1..m.e];
    assert ParseDigits(p) == LogAction(s, m).prepared && ParseDigits(q) == LogAction(s, m).sold;
    "\U{2705} Logged: " + p + " " + s[m.a + 1..m.b] + " prepared, " + q + " sold"
  }

  /** The panel's message for each outcome. Never empty; for a log entry
      it shows the item and the two digit runs the logged counts were
      read from. */
  function Feedback(text: string): (r: string)
    ensures r != []
    ensures var a := Classify(text).action;
      a.LogEntry? ==>
        exists p, q ::
          ParseDigits(p) == a.prepared && ParseDigits(q) == a.sold
          && r == "\U{2705} Logged: " + p + " " + a.item + " prepared, " + q + " sold"
  {
    var lower := Normalize(text);
    match Classify(text).action
    case Navigate(page) =>
      if page == "dashboard" then "\U{1F4CA} Navigating to Dashboard"
      else if page == "forecaster" then "\U{1F52E} Navigating to AI Forecast"
      else if page == "analytics" then "\U{1F4C8} Navigating to Analytics"
      else "\U{1F4CB} Navigating to History"
    case RunForecast => "\U{1F680} Running AI Forecast..."
    case LogEntry(_, _, _) =>
      LoggedMessage(lower, FindLogMatch(lower).value)
    case Help => "\U{1F3A4} Try: \"Show dashboard\", \"Run forecast\", \"Log 50 burgers prepared 45 sold\""
    case ChatQuery(_) => "\U{1F4AC} Sending to AI assistant..."
  }

  // ---------------------------------------------------------------------
  // The panel

  class VoicePanel {
    var isListening: bool
    var transcript: string
    var feedback: string
    var showPanel: bool
    /** The `onCommand` calls made so far, oldest first. */
    var sent: seq<Command>

    constructor()
      ensures !isListening && transcript == "" && feedback == "" && !showPanel && sent == []
    {
      isListening, transcript, feedback, showPanel, sent := false, "", "", false, [];
    }

    /** `processCommand`: one `onCommand` call per transcript, and the
        matching feedback; it changes nothing else. */
    method ProcessCommand(text: string)
      modifies this`sent, this`feedback
      ensures sent == old(sent) + [Classify(text)]
      ensures feedback == Feedback(text)
    {
      sent := sent + [Classify(text)];
      feedback := Feedback(text);
    }

    /** `recognition.onstart` */
    method OnStart()
      modifies this
      ensures isListening && transcript == "" && feedback == "\U{1F3A4} Listening..."
      ensures sent == old(sent) && showPanel == old(showPanel)
    {
      isListening, transcript, feedback := true, "", "\U{1F3A4} Listening...";
    }

    /** `recognition.onresult`: the transcript is shown, and processed once
        it is final; the listening flag and the panel stay as they are. */
    method OnResult(text: string, isFinal: bool)
      modifies this`transcript, this`sent, this`feedback
      ensures transcript == text
      ensures sent == old(sent) + (if isFinal then [Classify(text)] else [])
      ensures feedback == if isFinal then Feedback(text) else old(feedback)
    {
      transcript := text;
      if isFinal {
        ProcessCommand(text);
      }
    }

    /** `recognition.onerror` */
    method OnError(error: string)
      modifies this
      ensures !isListening && feedback == "\U{274C} Error: " + error
      ensures sent == old(sent) && transcript == old(transcript) && showPanel == old(showPanel)
    {
      feedback := "\U{274C} Error: " + error;
      isListening := false;
    }

    /** `recognition.onend` */
    method OnEnd()
      modifies this
      ensures !isListening
      ensures sent == old(sent) && transcript == old(transcript) && feedback == old(feedback) && showPanel == old(showPanel)
    {
      isListening := false;
    }

    /** The floating button. */
    method TogglePanel()
      modifies this
      ensures showPanel == !old(showPanel)
      ensures sent == old(sent) && transcript == old(transcript) && feedback == old(feedback) && isListening == old(isListening)
    {
      showPanel := !showPanel;
    }
  }
}
