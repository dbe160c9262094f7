/** The interactive menus the migrators show when a configuration already
    exists in the target, or (for custom dashboards) once before the run.
    Each menu re-asks until a recognised answer is typed; the lines the user
    types are given as a sequence, and running out of them is the EOFError
    that `input()` raises. */
module Prompts {
  import opened Json

  /** The answer to the skip / update / cancel menu. */
  datatype Choice = Skip | Update | Cancel

  /** The answer to the dashboard strategy menu: override, skip or cancel. */
  datatype Strategy = Override | KeepExisting | Abort

  /** What a re-asking menu ends with: the first recognised answer and how
      many typed lines it consumed, or EOFError when the lines ran out. */
  datatype Asked<A> = Answered(answer: A, used: nat) | InputExhausted

  /** The word the skip / update / cancel menus return for a choice. */
  function ChoiceWord(c: Choice): string {
    match c
    case Skip => "skip"
    case Update => "update"
    case Cancel => "cancel"
  }

  /** Recognising an already normalised answer to the s/u/c menu: the letter
      or the whole word, nothing else. */
  function SucAnswer(a: string): (r: Option<Choice>)
    ensures r == Some(Skip) <==> a == "s" || a == "skip"
    ensures r == Some(Update) <==> a == "u" || a == "update"
    ensures r == Some(Cancel) <==> a == "c" || a == "cancel"
  {
    if a == "s" || a == "skip" then Some(Skip)
    else if a == "u" || a == "update" then Some(Update)
    else if a == "c" || a == "cancel" then Some(Cancel)
    else None
  }

  /** The duplicate menus of alert channels, events and the synchronous
      dashboards migrator read `input().lower()`. */
  function DuplicateAnswer(line: string): Option<Choice> {
    SucAnswer(Lower(line))
  }

  /** The alert-configuration menu reads `input().lower().strip()`. */
  function DuplicateAnswerStripped(line: string): Option<Choice> {
    SucAnswer(Strip(Lower(line)))
  }

  /** The dashboard strategy menu reads `input().lower()` and knows o/s/c. */
  function StrategyAnswer(line: string): (r: Option<Strategy>)
    ensures r == Some(Override) <==> Lower(line) == "o" || Lower(line) == "override"
    ensures r == Some(KeepExisting) <==> Lower(line) == "s" || Lower(line) == "skip"
    ensures r == Some(Abort) <==> Lower(line) == "c" || Lower(line) == "cancel"
  {
    var a := Lower(line);
    if a == "o" || a == "override" then Some(Override)
    else if a == "s" || a == "skip" then Some(KeepExisting)
    else if a == "c" || a == "cancel" then Some(Abort)
    else None
  }

  /** The outcome of a `while True: ... input() ...` menu over the typed
      lines: the first line `read` recognises, every earlier line having
      been rejected with "Invalid choice". */
  function FirstAnswer<A>(typed: seq<string>, read: string -> Option<A>): (r: Asked<A>)
    ensures r.Answered? ==> 0 < r.used <= |typed| && read(typed[r.used - 1]) == Some(r.answer)
    ensures r.Answered? ==> forall j :: 0 <= j < r.used - 1 ==> read(typed[j]).None?
    ensures r.InputExhausted? ==> forall j :: 0 <= j < |typed| ==> read(typed[j]).None?
  {
    if typed == [] then InputExhausted
    else match read(typed[0])
      case Some(a) => Answered(a, 1)
      case None =>
        match FirstAnswer(typed[1..], read)
        case InputExhausted => InputExhausted
        case Answered(a, n) => Answered(a, n + 1)
  }

  /** The menu loop itself: read a line, give it to `read`, ask again while
      the answer is not recognised. */
  method Ask<A>(typed: seq<string>, read: string -> Option<A>) returns (r: Asked<A>)
    ensures r == FirstAnswer(typed, read)
  {
    var i := 0;
    while i < |typed| && read(typed[i]).None?
      invariant 0 <= i <= |typed|
      invariant forall j :: 0 <= j < i ==> read(typed[j]).None?
      invariant FirstAnswer(typed, read) == Shift(FirstAnswer(typed[i..], read), i)
    {
      ShiftStep(typed[i..], read, i);
      assert typed[i..][1..] == typed[i + 1..];
      i := i + 1;
    }
    if i == |typed| {
      r := InputExhausted;
    } else {
      r := Answered(read(typed[i]).value, i + 1);
    }
  }

  /** An answer found after `k` more rejected lines. */
  function Shift<A>(r: Asked<A>, k: nat): Asked<A> {
    match r
    case InputExhausted => InputExhausted
    case Answered(a, n) => Answered(a, n + k)
  }

  lemma ShiftStep<A>(typed: seq<string>, read: string -> Option<A>, k: nat)
    requires typed != [] && read(typed[0]).None?
    ensures Shift(FirstAnswer(typed, read), k) == Shift(FirstAnswer(typed[1..], read), k + 1)
  {
  }

  /** The menu ends with the answer typed on line `k` exactly when that line
      is recognised and every line before it was rejected. */
  lemma {:induction false} FirstAnswerAt<A>(typed: seq<string>, read: string -> Option<A>, k: nat, a: A)
    requires k < |typed| && read(typed[k]) == Some(a)
    requires forall j :: 0 <= j < k ==> read(typed[j]).None?
    ensures FirstAnswer(typed, read) == Answered(a, k + 1)
  {
    if k > 0 {
      assert forall j :: 0 <= j < k - 1 ==> typed[1..][j] == typed[j + 1];
      FirstAnswerAt(typed[1..], read, k - 1, a);
    }
  }

  /** Python's `str.lower()` is idempotent on the ASCII letters, so every
      way of typing a menu word in capitals is read as the word itself. */
  lemma {:induction false} LowerIdempotent(s: string)
    ensures Lower(Lower(s)) == Lower(s)
  {
    if s != [] {
      LowerIdempotent(s[1..]);
      assert Lower(s)[1..] == Lower(s[1..]);
    }
  }

  /** Every letter and word a menu shows is recognised, in any case. */
  lemma MenuWordsRecognised(c: Choice)
    ensures SucAnswer(ChoiceWord(c)) == Some(c)
    ensures SucAnswer(ChoiceWord(c)[..1]) == Some(c)
    ensures DuplicateAnswer("SKIP") == Some(Skip) && DuplicateAnswer("U") == Some(Update)
    ensures StrategyAnswer("Override") == Some(Override) && StrategyAnswer("C") == Some(Abort)
  {
    LowerLiterals();
    assert Lower("U") == "u";
    assert Lower("C") == "c";
  }

  /** The literal lowercasings the menu lemmas rely on. */
  lemma LowerLiterals()
    ensures Lower("SKIP") == "skip" && Lower("Override") == "override"
  {
  }

  /** Lowercasing leaves `" u "` alone, and stripping it gives `"u"`, one
      side at a time. */
  lemma StripPaddedU()
    ensures Lower(" u ") == " u "
    ensures StripLeft(" u ") == "u " && StripRight("u ") == "u"
  {
    StripLeftStep(" u ");
    assert " u "[1..] == "u ";
    StripRightStep("u ");
    assert "u "[..1] == "u";
  }

  /** Only the alert-configuration menu tolerates surrounding blanks. */
  lemma OnlyConfigMenuStrips()
    ensures DuplicateAnswer(" u ") == None
    ensures DuplicateAnswerStripped(" u ") == Some(Update)
  {
    StripPaddedU();
    assert Strip(" u ") == "u";
  }
}
