/** The browser-facing code of a failed transition, chosen by searching its error text. */
module Classification {
  import opened Text
  import opened Recovery
  import opened Profiles
  import Connectivity

  datatype Code = RestorationFailed | ConnectivityUnavailable | ConnectionFailed

  const ROLLBACK_MARK := "rollback networkmanager checkpoint"
  const RESTORE_MARK := "confirm previous connection restoration"
  const INTERNET_MARK := "internet-not-confirmed"
  const CONNECTIVITY_MARK := "connectivity"

  /** Any character-wise lower-casing that treats ASCII as ASCII. */
  ghost predicate AsciiFold(fold: char -> char) {
    forall c: char :: c as int < 128 ==> fold(c) == AsciiLower(c)
  }

  function Fold(fold: char -> char, s: string): (r: string)
    ensures |r| == |s| && forall i :: 0 <= i < |s| ==> r[i] == fold(s[i])
  {
    seq(|s|, i requires 0 <= i < |s| => fold(s[i]))
  }

  function Classify(fold: char -> char, text: string): Code {
    var message := Fold(fold, text);
    if Index(message, ROLLBACK_MARK) >= 0 || Index(message, RESTORE_MARK) >= 0 then RestorationFailed
    else if Index(message, INTERNET_MARK) >= 0 || Index(message, CONNECTIVITY_MARK) >= 0 then ConnectivityUnavailable
    else ConnectionFailed
  }

  /** The text contains one of the two words for a failed restoration. */
  ghost predicate MarksRestoration(fold: char -> char, text: string) {
    Contains(Fold(fold, text), ROLLBACK_MARK) || Contains(Fold(fold, text), RESTORE_MARK)
  }

  ghost predicate MarksConnectivity(fold: char -> char, text: string) {
    Contains(Fold(fold, text), INTERNET_MARK) || Contains(Fold(fold, text), CONNECTIVITY_MARK)
  }

  lemma ClassifyByMarks(fold: char -> char, text: string)
    ensures Classify(fold, text) == RestorationFailed <==> MarksRestoration(fold, text)
    ensures Classify(fold, text) == ConnectivityUnavailable <==>
            !MarksRestoration(fold, text) && MarksConnectivity(fold, text)
  {
    var message := Fold(fold, text);
    IndexFindsIffContained(message, ROLLBACK_MARK);
    IndexFindsIffContained(message, RESTORE_MARK);
    IndexFindsIffContained(message, INTERNET_MARK);
    IndexFindsIffContained(message, CONNECTIVITY_MARK);
  }

  lemma FoldConcat(fold: char -> char, a: string, b: string)
    ensures Fold(fold, a + b) == Fold(fold, a) + Fold(fold, b)
  {
  }

  /** A separator that no mark contains keeps marks from straddling it. */
  lemma MarkInJoin(fold: char -> char, a: string, sep: char, b: string, mark: string)
    requires AsciiFold(fold) && sep in {'\n', ':'} && sep !in mark
    ensures Contains(Fold(fold, a + [sep] + b), mark) <==>
            Contains(Fold(fold, a), mark) || Contains(Fold(fold, b), mark)
  {
    assert a + [sep] + b == a + ([sep] + b);
    FoldConcat(fold, a, [sep] + b);
    FoldConcat(fold, [sep], b);
    assert Fold(fold, [sep]) == [sep];
    assert Fold(fold, a + [sep] + b) == Fold(fold, a) + [sep] + Fold(fold, b);
    ContainsInJoin(Fold(fold, a), sep, Fold(fold, b), mark);
  }

  lemma MarksLackSeparators()
    ensures forall mark :: mark in [ROLLBACK_MARK, RESTORE_MARK, INTERNET_MARK, CONNECTIVITY_MARK] ==>
              '\n' !in mark && ':' !in mark && |mark| > 0 && mark[0] != ' '
  {
  }

  lemma MarksInJoin(fold: char -> char, a: string, sep: char, b: string)
    requires AsciiFold(fold) && sep in {'\n', ':'}
    ensures MarksRestoration(fold, a + [sep] + b) <==> MarksRestoration(fold, a) || MarksRestoration(fold, b)
    ensures MarksConnectivity(fold, a + [sep] + b) <==> MarksConnectivity(fold, a) || MarksConnectivity(fold, b)
  {
    MarksLackSeparators();
    var marks := [ROLLBACK_MARK, RESTORE_MARK, INTERNET_MARK, CONNECTIVITY_MARK];
    assert marks[0] in marks && marks[1] in marks && marks[2] in marks && marks[3] in marks;
    MarkInJoin(fold, a, sep, b, ROLLBACK_MARK);
    MarkInJoin(fold, a, sep, b, RESTORE_MARK);
    MarkInJoin(fold, a, sep, b, INTERNET_MARK);
    MarkInJoin(fold, a, sep, b, CONNECTIVITY_MARK);
  }

  /** A leading blank starts no mark. */
  lemma MarkAfterBlank(fold: char -> char, e: string, mark: string)
    requires AsciiFold(fold) && |mark| > 0 && mark[0] != ' '
    ensures Contains(Fold(fold, " " + e), mark) <==> Contains(Fold(fold, e), mark)
  {
    FoldConcat(fold, " ", e);
    assert Fold(fold, " ") == " ";
    BlankStartsNoMark(Fold(fold, e), mark);
  }

  lemma BlankStartsNoMark(s: string, mark: string)
    requires |mark| > 0 && mark[0] != ' '
    ensures Contains(" " + s, mark) <==> Contains(s, mark)
  {
    var whole := " " + s;
    assert whole[1..] == s;
    if i :| MatchAt(whole, mark, i) {
      assert whole[i..i + |mark|][0] == whole[i];
      assert s[i - 1..i - 1 + |mark|] == whole[i..i + |mark|];
      assert MatchAt(s, mark, i - 1);
    }
    if i :| MatchAt(s, mark, i) {
      assert whole[i + 1..i + 1 + |mark|] == s[i..i + |mark|];
      assert MatchAt(whole, mark, i + 1);
    }
  }

  /** `prefix: e` is marked exactly when the prefix or the wrapped error is. */
  lemma MarksInWrapped(fold: char -> char, prefix: string, e: string)
    requires AsciiFold(fold)
    ensures MarksRestoration(fold, prefix + ": " + e) <==> MarksRestoration(fold, prefix) || MarksRestoration(fold, e)
    ensures MarksConnectivity(fold, prefix + ": " + e) <==> MarksConnectivity(fold, prefix) || MarksConnectivity(fold, e)
  {
    assert prefix + ": " + e == prefix + [':'] + (" " + e);
    MarksInJoin(fold, prefix, ':', " " + e);
    MarkAfterBlank(fold, e, ROLLBACK_MARK);
    MarkAfterBlank(fold, e, RESTORE_MARK);
    MarkAfterBlank(fold, e, INTERNET_MARK);
    MarkAfterBlank(fold, e, CONNECTIVITY_MARK);
  }

  lemma RollbackWordingIsMarked(fold: char -> char)
    requires AsciiFold(fold)
    ensures MarksRestoration(fold, "rollback NetworkManager checkpoint")
  {
    assert Fold(fold, "rollback NetworkManager checkpoint") == ROLLBACK_MARK;
    assert MatchAt(ROLLBACK_MARK, ROLLBACK_MARK, 0);
  }

  lemma RestoreWordingIsMarked(fold: char -> char)
    requires AsciiFold(fold)
    ensures MarksRestoration(fold, "confirm previous connection restoration")
  {
    assert Fold(fold, "confirm previous connection restoration") == RESTORE_MARK;
    assert MatchAt(RESTORE_MARK, RESTORE_MARK, 0);
  }

  /** The wording of a failed rollback and of an unconfirmed restoration is always marked. */
  lemma WordingIsMarked(fold: char -> char)
    requires AsciiFold(fold)
    ensures MarksRestoration(fold, "rollback NetworkManager checkpoint")
    ensures MarksRestoration(fold, "confirm previous connection restoration")
  {
    RollbackWordingIsMarked(fold);
    RestoreWordingIsMarked(fold);
  }

  /** The report is marked exactly when a rollback or restoration failed, or the text of the
      failed deletion happens to be. */
  ghost predicate ReportMarks(fold: char -> char, report: Report) {
    report.rollback.Some? || report.restoration.Some? ||
    (report.rejected.Some? && MarksRestoration(fold, report.rejected.value))
  }

  lemma TailMarks(fold: char -> char, messages: Messages, text: string, report: Report)
    requires AsciiFold(fold) && report.rollback.None?
    ensures var tail := if report.restoration.Some?
                        then "\n" + "confirm previous connection restoration: " + report.restoration.value else "";
            MarksRestoration(fold, text + tail) <==> MarksRestoration(fold, text) || report.restoration.Some?
  {
    if report.restoration.Some? {
      var line := "confirm previous connection restoration" + ": " + report.restoration.value;
      assert text + ("\n" + "confirm previous connection restoration: " + report.restoration.value) ==
             text + ['\n'] + line;
      MarksInJoin(fold, text, '\n', line);
      MarksInWrapped(fold, "confirm previous connection restoration", report.restoration.value);
      WordingIsMarked(fold);
    } else {
      assert text + "" == text;
    }
  }

  lemma FailedRollbackMarks(fold: char -> char, messages: Messages, cause: string, report: Report)
    requires AsciiFold(fold) && report.rollback.Some?
    ensures MarksRestoration(fold, FailureText(messages, cause, report))
  {
    var line := "rollback NetworkManager checkpoint" + ": " + report.rollback.value;
    assert FailureText(messages, cause, report) == cause + ['\n'] + line;
    MarksInJoin(fold, cause, '\n', line);
    MarksInWrapped(fold, "rollback NetworkManager checkpoint", report.rollback.value);
    WordingIsMarked(fold);
  }

  lemma RejectedMarks(fold: char -> char, messages: Messages, cause: string, rejected: Option<string>)
    requires AsciiFold(fold) && !MarksRestoration(fold, messages.rejected)
    ensures var text := cause + if rejected.Some? then "\n" + messages.rejected + ": " + rejected.value else "";
            MarksRestoration(fold, text) <==>
            MarksRestoration(fold, cause) || (rejected.Some? && MarksRestoration(fold, rejected.value))
  {
    if rejected.Some? {
      var line := messages.rejected + ": " + rejected.value;
      assert cause + ("\n" + messages.rejected + ": " + rejected.value) == cause + ['\n'] + line;
      MarksInJoin(fold, cause, '\n', line);
      MarksInWrapped(fold, messages.rejected, rejected.value);
    } else {
      assert cause + "" == cause;
    }
  }

  /** Classification agrees with the rollback outcome: whatever the cause says, a failed
      rollback or restoration is reported as restoration_failed, and nothing else is unless
      an inner error text contains the words itself. */
  lemma ClassificationAgrees(fold: char -> char, messages: Messages, cause: string, report: Report)
    requires AsciiFold(fold) && !MarksRestoration(fold, messages.rejected)
    ensures Classify(fold, FailureText(messages, cause, report)) == RestorationFailed <==>
            ReportMarks(fold, report) || MarksRestoration(fold, cause)
  {
    ClassifyByMarks(fold, FailureText(messages, cause, report));
    if report.rollback.Some? {
      FailedRollbackMarks(fold, messages, cause, report);
    } else {
      RejectedMarks(fold, messages, cause, report.rejected);
      var text := cause + if report.rejected.Some? then "\n" + messages.rejected + ": " + report.rejected.value else "";
      TailMarks(fold, messages, text, report);
    }
  }

  lemma ShortTextHasNoMark(fold: char -> char, s: string, mark: string)
    requires |mark| > 1
    requires forall i :: 0 <= i && i + |mark| <= |s| ==> fold(s[i]) != mark[0] || fold(s[i + 1]) != mark[1]
    ensures !Contains(Fold(fold, s), mark)
  {
    var folded := Fold(fold, s);
    forall i ensures !MatchAt(folded, mark, i) {
      if 0 <= i && i + |mark| <= |s| {
        var here := folded[i..i + |mark|];
        assert here[0] == fold(s[i]) && here[1] == fold(s[i + 1]);
      }
    }
  }

  lemma InfrastructureRemovalIsUnmarked(fold: char -> char)
    requires AsciiFold(fold)
    ensures !MarksRestoration(fold, INFRASTRUCTURE_MESSAGES.rejected)
  {
    ShortTextHasNoMark(fold, INFRASTRUCTURE_MESSAGES.rejected, ROLLBACK_MARK);
    ShortTextHasNoMark(fold, INFRASTRUCTURE_MESSAGES.rejected, RESTORE_MARK);
  }

  lemma StandaloneRemovalIsUnmarked(fold: char -> char)
    requires AsciiFold(fold)
    ensures !MarksRestoration(fold, STANDALONE_MESSAGES.rejected)
  {
    ShortTextHasNoMark(fold, STANDALONE_MESSAGES.rejected, ROLLBACK_MARK);
    ShortTextHasNoMark(fold, STANDALONE_MESSAGES.rejected, RESTORE_MARK);
  }

  /** Neither kind of transition words its own candidate removal as a failed restoration. */
  lemma RemovalIsUnmarked(fold: char -> char)
    requires AsciiFold(fold)
    ensures !MarksRestoration(fold, INFRASTRUCTURE_MESSAGES.rejected)
    ensures !MarksRestoration(fold, STANDALONE_MESSAGES.rejected)
  {
    InfrastructureRemovalIsUnmarked(fold);
    StandaloneRemovalIsUnmarked(fold);
  }

  lemma LacksLetter(fold: char -> char, s: string, mark: string, k: nat)
    requires k < |mark| && forall j :: 0 <= j < |s| ==> fold(s[j]) != mark[k]
    ensures !Contains(Fold(fold, s), mark)
  {
    var folded := Fold(fold, s);
    forall i ensures !MatchAt(folded, mark, i) {
      if 0 <= i && i + |mark| <= |s| {
        assert folded[i..i + |mark|][k] == fold(s[i + k]);
      }
    }
  }

  lemma InspectionWording(fold: char -> char)
    requires AsciiFold(fold)
    ensures MarksConnectivity(fold, INFRASTRUCTURE_MESSAGES.inspect)
    ensures !MarksRestoration(fold, INFRASTRUCTURE_MESSAGES.inspect)
  {
    var text := INFRASTRUCTURE_MESSAGES.inspect;
    assert Fold(fold, text) == text;
    assert text[18..30] == CONNECTIVITY_MARK;
    assert MatchAt(text, CONNECTIVITY_MARK, 18);
  }

  lemma StandaloneInspectionWording(fold: char -> char)
    requires AsciiFold(fold)
    ensures !MarksConnectivity(fold, STANDALONE_MESSAGES.inspect) && !MarksRestoration(fold, STANDALONE_MESSAGES.inspect)
  {
    LacksLetter(fold, STANDALONE_MESSAGES.inspect, INTERNET_MARK, 8);
    LacksLetter(fold, STANDALONE_MESSAGES.inspect, CONNECTIVITY_MARK, 8);
  }

  const CLEAN := Report(None, None, None)

  /** The one asymmetry the wording is a contract for: a status that cannot be read after a
      clean rollback counts against connectivity for a network, and against the connection
      for an access point. */
  lemma InspectionIsAsymmetric(fold: char -> char, e: string)
    requires AsciiFold(fold) && !MarksRestoration(fold, e)
    ensures Classify(fold, FailureText(INFRASTRUCTURE_MESSAGES, INFRASTRUCTURE_MESSAGES.inspect + ": " + e, CLEAN)) ==
            ConnectivityUnavailable
    ensures Classify(fold, FailureText(STANDALONE_MESSAGES, STANDALONE_MESSAGES.inspect + ": " + e, CLEAN)) ==
            if MarksConnectivity(fold, e) then ConnectivityUnavailable else ConnectionFailed
  {
    InspectionWording(fold);
    StandaloneInspectionWording(fold);
    CleanFailure(fold, INFRASTRUCTURE_MESSAGES, INFRASTRUCTURE_MESSAGES.inspect, e);
    CleanFailure(fold, STANDALONE_MESSAGES, STANDALONE_MESSAGES.inspect, e);
  }

  lemma CleanFailure(fold: char -> char, messages: Messages, stage: string, e: string)
    requires AsciiFold(fold)
    ensures var code := Classify(fold, FailureText(messages, stage + ": " + e, CLEAN));
            && (code == RestorationFailed <==> MarksRestoration(fold, stage) || MarksRestoration(fold, e))
            && (code == ConnectivityUnavailable <==>
                 code != RestorationFailed && (MarksConnectivity(fold, stage) || MarksConnectivity(fold, e)))
  {
    MarksInWrapped(fold, stage, e);
    assert FailureText(messages, stage + ": " + e, CLEAN) == stage + ": " + e;
    ClassifyByMarks(fold, stage + ": " + e);
  }

  /** A text without the letters b and f contains no mark. */
  lemma LettersDecide(fold: char -> char, s: string)
    requires forall j :: 0 <= j < |s| ==> fold(s[j]) != 'b' && fold(s[j]) != 'f'
    ensures !MarksRestoration(fold, s)
  {
    LacksLetter(fold, s, ROLLBACK_MARK, 4);
    LacksLetter(fold, s, RESTORE_MARK, 3);
  }

  lemma InfrastructureProtectionWording(fold: char -> char)
    requires AsciiFold(fold)
    ensures !MarksRestoration(fold, INFRASTRUCTURE_MESSAGES.checkpoint)
  {
    LettersDecide(fold, INFRASTRUCTURE_MESSAGES.checkpoint);
  }

  lemma StandaloneProtectionWording(fold: char -> char)
    requires AsciiFold(fold)
    ensures !MarksRestoration(fold, STANDALONE_MESSAGES.checkpoint)
  {
    LettersDecide(fold, STANDALONE_MESSAGES.checkpoint);
  }

  /** A transition whose checkpoint could not be created has restored nothing, and is not
      reported as a failed restoration unless the inner error text contains the words. */
  lemma UnprotectedIsClassified(fold: char -> char, plan: Plan, s: Store, s': Store, err: string, a: Account)
    requires AsciiFold(fold) && plan.messages in {INFRASTRUCTURE_MESSAGES, STANDALONE_MESSAGES}
    requires UnprotectedAccount(plan, s, s', err, a)
    ensures Classify(fold, err) == RestorationFailed <==> MarksRestoration(fold, a.cause)
  {
    InfrastructureProtectionWording(fold);
    StandaloneProtectionWording(fold);
    MarksInWrapped(fold, plan.messages.checkpoint, a.cause);
    ClassifyByMarks(fold, err);
  }

  /** And one that was rolled back is classified by its report and its cause. */
  lemma RejectedIsClassified(fold: char -> char, plan: Plan, s: Store, s': Store, err: string, a: Account)
    requires AsciiFold(fold) && plan.messages in {INFRASTRUCTURE_MESSAGES, STANDALONE_MESSAGES}
    requires RejectedAccount(plan, s, s', err, a)
    ensures Classify(fold, err) == RestorationFailed <==>
            ReportMarks(fold, a.report.value) || MarksRestoration(fold, a.cause)
  {
    RemovalIsUnmarked(fold);
    ClassificationAgrees(fold, plan.messages, a.cause, a.report.value);
  }

  lemma InternetVerdictIsMarked(fold: char -> char)
    requires AsciiFold(fold)
    ensures MarksConnectivity(fold, Connectivity.VerdictText(Connectivity.InternetNotConfirmed))
  {
    assert Fold(fold, INTERNET_MARK) == INTERNET_MARK;
    assert MatchAt(INTERNET_MARK, INTERNET_MARK, 0);
  }

  /** A text without the letters b and p contains no mark either. */
  ghost predicate Plain(fold: char -> char, s: string) {
    forall j :: 0 <= j < |s| ==> fold(s[j]) != 'b' && fold(s[j]) != 'p'
  }

  lemma PlainIsUnmarked(fold: char -> char, s: string, t: string)
    requires Plain(fold, s) && Plain(fold, t)
    ensures !MarksRestoration(fold, s + t)
  {
    LacksLetter(fold, s + t, ROLLBACK_MARK, 4);
    LacksLetter(fold, s + t, RESTORE_MARK, 8);
  }

  lemma StageTailIsPlain(fold: char -> char)
    requires AsciiFold(fold)
    ensures Plain(fold, "satisfy internet requirement")
  {
  }

  lemma RejectionStageIsUnmarked(fold: char -> char)
    requires AsciiFold(fold)
    ensures !MarksRestoration(fold, "candidate does not satisfy internet requirement")
  {
    var s, t := "candidate does not ", "satisfy internet requirement";
    StageTailIsPlain(fold);
    PlainIsUnmarked(fold, s, t);
    assert s + t == "candidate does not satisfy internet requirement";
  }

  lemma InternetVerdictIsUnmarked(fold: char -> char)
    requires AsciiFold(fold)
    ensures !MarksRestoration(fold, Connectivity.VerdictText(Connectivity.InternetNotConfirmed))
  {
    LacksLetter(fold, "internet-not-confirmed", ROLLBACK_MARK, 4);
    LacksLetter(fold, "internet-not-confirmed", RESTORE_MARK, 11);
  }

  lemma UnmetInternetReads(verdict: string)
    requires verdict == Connectivity.VerdictText(Connectivity.InternetNotConfirmed)
    ensures Unsatisfied(Connectivity.Internet, Connectivity.InternetNotConfirmed) ==
            "candidate does not satisfy internet requirement" + ": " + verdict
  {
    assert "candidate does not satisfy " + "internet" + " requirement: " ==
           "candidate does not satisfy internet requirement" + ": ";
  }

  /** A network that connects without the internet it must provide is reported as one without
      connectivity once everything was rolled back cleanly. */
  lemma UnmetInternetIsReported(fold: char -> char, messages: Messages)
    requires AsciiFold(fold)
    ensures Classify(fold, FailureText(messages, Unsatisfied(Connectivity.Internet, Connectivity.InternetNotConfirmed),
                                       CLEAN)) == ConnectivityUnavailable
  {
    var verdict := Connectivity.VerdictText(Connectivity.InternetNotConfirmed);
    RejectionStageIsUnmarked(fold);
    InternetVerdictIsUnmarked(fold);
    InternetVerdictIsMarked(fold);
    UnmetInternetReads(verdict);
    CleanFailure(fold, messages, "candidate does not satisfy internet requirement", verdict);
  }
}
