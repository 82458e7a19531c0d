/**
 * install_util.cc: the process-type cache, the install sub-directory, and the
 * command-line tokenizer and switch lookup that mirror `CommandLineToArgvW`.
 *
 * The command line is a wide C string: reading at or past its end yields the
 * terminator NUL, and every scan stops at the first NUL, as the C code does.
 */
module InstallUtil {
  import opened Wrappers

  // ---------------------------------------------------------------- process type

  datatype ProcessType = Uninitialized | OtherProcess | BrowserProcess | CrashpadHandlerProcess

  const CrashpadHandler: string := "crashpad-handler"
  const ProcessTypeSwitch: string := "type"

  /** `GetProcessType`: empty is the browser, "crashpad-handler" the handler, anything else other. */
  function GetProcessType(processType: string): (t: ProcessType)
    ensures t != Uninitialized
    ensures t == BrowserProcess <==> processType == ""
    ensures t == CrashpadHandlerProcess <==> processType == CrashpadHandler
    ensures t == OtherProcess <==> processType != "" && processType != CrashpadHandler
  {
    if processType == "" then BrowserProcess
    else if processType == CrashpadHandler then CrashpadHandlerProcess
    else OtherProcess
  }

  /** The global `g_process_type`, set once from the command line. */
  class ProcessTypeCache {
    var processType: ProcessType

    constructor ()
      ensures processType == Uninitialized
    {
      processType := Uninitialized;
    }

    /** Asserts that the type is not yet set, then caches the type of the "type" switch value. */
    method InitializeProcessType(commandLine: string)
      requires processType == Uninitialized
      requires commandLine != []
      modifies this
      ensures processType == GetProcessType(SwitchValueOf(Tokens(commandLine), ProcessTypeSwitch))
      ensures processType != Uninitialized
    {
      var value := GetCommandLineSwitchValue(commandLine, ProcessTypeSwitch);
      processType := GetProcessType(value);
    }

    /** `IsProcessTypeInitialized`. */
    function IsProcessTypeInitialized(): (r: bool)
      reads this
      ensures r <==> processType != Uninitialized
    {
      processType != Uninitialized
    }

    /** `IsBrowserProcess` asserts an initialized type. */
    method IsBrowserProcess() returns (r: bool)
      requires processType != Uninitialized
      ensures r <==> processType == BrowserProcess
    {
      r := processType == BrowserProcess;
    }
  }

  // ---------------------------------------------------------------- install directory

  /** The brand constants and the install mode's suffix used to build the install path. */
  datatype InstallNames = InstallNames(companyPathName: string, productPathName: string, installSuffix: string)

  /** `AppendChromeInstallSubDirectory`: appends "[company\]product[suffix]" to `path`. */
  function AppendChromeInstallSubDirectory(names: InstallNames, includeSuffix: bool, path: string): (r: string)
  {
    var company := if names.companyPathName != "" then names.companyPathName + "\\" else "";
    var withProduct := path + company + names.productPathName;
    if !includeSuffix then withProduct else withProduct + names.installSuffix
  }

  /**
   * The original path is kept as a prefix; the suffix is exactly what
   * `include_suffix` adds; the company separator appears only with a company name.
   */
  lemma AppendChromeInstallSubDirectoryShape(names: InstallNames, path: string)
    ensures StartsWith(AppendChromeInstallSubDirectory(names, false, path), path)
    ensures AppendChromeInstallSubDirectory(names, true, path) ==
      AppendChromeInstallSubDirectory(names, false, path) + names.installSuffix
    ensures names.companyPathName == "" ==>
      AppendChromeInstallSubDirectory(names, false, path) == path + names.productPathName
    ensures names.companyPathName != "" ==>
      AppendChromeInstallSubDirectory(names, false, path) ==
        path + names.companyPathName + ['\\'] + names.productPathName
  {
    var r := AppendChromeInstallSubDirectory(names, false, path);
    assert r[..|path|] == path;
  }

  // ---------------------------------------------------------------- tokenizer

  const NUL: char := '\0'

  /** `p[i]` on the C string `s`: the terminator at and past the end. */
  function At(s: string, i: nat): char
  {
    if i < |s| then s[i] else NUL
  }

  predicate IsSpaceTab(c: char)
  {
    c == ' ' || c == '\t'
  }

  /** Whether space and tab delimit tokens (`kInterpret`) or belong to the token (`kIgnore`). */
  datatype SpecialChars = Interpret | Ignore

  function Toggle(st: SpecialChars): SpecialChars
  {
    if st == Interpret then Ignore else Interpret
  }

  /** `k` backslashes. */
  function Backslashes(k: nat): (r: string)
    ensures |r| == k && forall i :: 0 <= i < k ==> r[i] == '\\'
  {
    if k == 0 then [] else Backslashes(k - 1) + ['\\']
  }

  /** `wcsspn(p, L" \t")` from index `i`: the end of a run of spaces and tabs. */
  function SpanSpaceTab(s: string, i: nat): (j: nat)
    requires i <= |s|
    ensures i <= j <= |s|
    ensures forall k :: i <= k < j ==> IsSpaceTab(s[k])
    ensures !IsSpaceTab(At(s, j))
    decreases |s| - i
  {
    if i < |s| && IsSpaceTab(s[i]) then SpanSpaceTab(s, i + 1) else i
  }

  /** `wcsspn(p, L"\\")` from index `i`: the end of a run of backslashes. */
  function SpanBackslash(s: string, i: nat): (j: nat)
    requires i <= |s|
    ensures i <= j <= |s|
    ensures forall k :: i <= k < j ==> s[k] == '\\'
    ensures At(s, j) != '\\'
    decreases |s| - i
  {
    if i < |s| && s[i] == '\\' then SpanBackslash(s, i + 1) else i
  }

  /** `wcscspn(p, L" \t")` from index `i`: the first space, tab or terminator. */
  function CSpanSpaceTab(s: string, i: nat): (j: nat)
    requires i <= |s|
    ensures i <= j <= |s|
    ensures forall k :: i <= k < j ==> !IsSpaceTab(s[k]) && s[k] != NUL
    ensures At(s, j) == NUL || IsSpaceTab(At(s, j))
    decreases |s| - i
  {
    if i < |s| && !IsSpaceTab(s[i]) && s[i] != NUL then CSpanSpaceTab(s, i + 1) else i
  }

  /** `wcschr(p, L'"')` from index `i`: the first quote before the terminator, if any. */
  function FindQuote(s: string, i: nat): (r: Option<nat>)
    requires i <= |s|
    ensures r.Some? ==> i <= r.value < |s| && s[r.value] == '"'
    ensures r.Some? ==> forall k :: i <= k < r.value ==> s[k] != '"'
    ensures r.None? ==> forall k :: i <= k < |s| ==> s[k] != '"' || (exists m :: i <= m < k && s[m] == NUL)
    ensures r.Some? ==> forall k :: i <= k < r.value ==> s[k] != NUL
    decreases |s| - i
  {
    if i == |s| || s[i] == NUL then None
    else if s[i] == '"' then Some(i)
    else FindQuote(s, i + 1)
  }

  /**
   * The program name and the index of the character just after it
   * (`p[argv0_length]`): quoted up to the closing quote, or to the end
   * without one; unquoted up to the first space, tab or terminator.
   */
  function Argv0(s: string): (r: (string, nat))
    ensures r.1 <= |s|
  {
    if At(s, 0) == '"' then
      match FindQuote(s, 1)
      case None => (s[1..], |s|)
      case Some(c) => (s[1..c], c)
    else
      var e := CSpanSpaceTab(s, 0);
      (s[..e], e)
  }

  /**
   * The program name rule: after an opening quote it runs to the first quote
   * before the terminator, or to the end of the line without one; otherwise
   * it runs to the first space, tab or terminator. If nothing follows it the
   * result has exactly one element.
   */
  lemma Argv0Rule(s: string)
    ensures At(s, 0) == '"' && FindQuote(s, 1).None? ==> Tokens(s) == [s[1..]]
    ensures At(s, 0) == '"' && FindQuote(s, 1).Some? ==>
      var c := FindQuote(s, 1).value;
      Tokens(s)[0] == s[1..c] && (forall k :: 1 <= k < c ==> s[k] != '"' && s[k] != NUL) && s[c] == '"'
    ensures At(s, 0) != '"' ==>
      var e := Argv0(s).1;
      Tokens(s)[0] == s[..e] && (At(s, e) == NUL || IsSpaceTab(At(s, e))) &&
      (forall k :: 0 <= k < e ==> !IsSpaceTab(s[k]) && s[k] != NUL)
    ensures At(s, Argv0(s).1) == NUL ==> Tokens(s) == [Argv0(s).0]
  {
  }

  /** The scanner's variables inside one argument: `p`, `state` and `token`. */
  datatype Scan = Scan(p: nat, st: SpecialChars, tok: string)

  /** One pass of the inner loop: the argument ends, or the scan goes on. */
  datatype ScanStep = Ended(tok: string, end: nat) | Continue(next: Scan)

  /**
   * One pass of the inner `for (;;)`: count a run of backslashes, then treat
   * a quote (halve the backslashes; an odd run protects the quote; `""`
   * inside quotes gives one quote; otherwise toggle the mode), or copy the
   * backslashes and end the argument at the terminator or an interpreted
   * space/tab, or copy the character.
   */
  function Step(s: string, c: Scan): (r: ScanStep)
    requires c.p <= |s|
    ensures r.Continue? ==> c.p < r.next.p <= |s|
    ensures r.Ended? ==> c.p <= r.end <= |s| && (At(s, r.end) == NUL || IsSpaceTab(At(s, r.end)))
    ensures r.Ended? && r.end == c.p ==> At(s, c.p) == NUL || IsSpaceTab(At(s, c.p))
  {
    var q := SpanBackslash(s, c.p);
    var n := q - c.p;
    if At(s, q) == '"' then
      var tok1 := c.tok + Backslashes(n / 2);
      if n % 2 == 1 then Continue(Scan(q + 1, c.st, tok1 + ['"']))
      else if At(s, q + 1) == '"' && c.st == Ignore then Continue(Scan(q + 2, Interpret, tok1 + ['"']))
      else Continue(Scan(q + 1, Toggle(c.st), tok1))
    else
      var tok1 := c.tok + Backslashes(n);
      if At(s, q) == NUL || (c.st == Interpret && IsSpaceTab(At(s, q))) then Ended(tok1, q)
      else Continue(Scan(q + 1, c.st, tok1 + [s[q]]))
  }

  /**
   * Scans one argument from scanner state `c` to its end. Returns the
   * argument and the index of the character that ended it (an interpreted
   * space/tab, or the terminator).
   */
  function ScanToken(s: string, c: Scan): (r: (string, nat))
    requires c.p <= |s|
    ensures c.p <= r.1 <= |s|
    ensures At(s, r.1) == NUL || IsSpaceTab(At(s, r.1))
    ensures r.1 == c.p ==> At(s, c.p) == NUL || IsSpaceTab(At(s, c.p))
    decreases |s| - c.p
  {
    match Step(s, c)
    case Ended(tok, end) => (tok, end)
    case Continue(next) => ScanToken(s, next)
  }

  /** The arguments from index `p`: skip spaces and tabs, scan one, repeat until the terminator. */
  function ArgsFrom(s: string, p: nat): seq<string>
    requires p <= |s|
    decreases |s| - p
  {
    var q := SpanSpaceTab(s, p);
    if At(s, q) == NUL then []
    else
      var (tok, r) := ScanToken(s, Scan(q, Interpret, []));
      [tok] + ArgsFrom(s, r)
  }

  /** The reference definition of `TokenizeCommandLineToArray`. */
  function Tokens(s: string): (r: seq<string>)
    ensures |r| >= 1 && r[0] == Argv0(s).0
  {
    var (a0, e) := Argv0(s);
    if At(s, e) == NUL then [a0] else [a0] + ArgsFrom(s, e + 1)
  }

  /**
   * The body of the inner `for (;;)` of `TokenizeCommandLineToArray`, on the
   * scanner variables `p`, `state` and `token`.
   */
  method ScanPass(s: string, c: Scan) returns (r: ScanStep)
    requires c.p <= |s|
    ensures r == Step(s, c)
  {
    var p, state, token := c.p, c.st, c.tok;
    var numBackslashes := SpanBackslash(s, p) - p;
    p := p + numBackslashes;
    if At(s, p) == '"' {
      token := token + Backslashes(numBackslashes / 2);
      if numBackslashes % 2 == 1 {
        token := token + ['"'];
      } else if At(s, p + 1) == '"' && state == Ignore {
        p := p + 1;
        token := token + ['"'];
        state := Interpret;
      } else {
        state := Toggle(state);
      }
    } else {
      token := token + Backslashes(numBackslashes);
      if At(s, p) == NUL || (state == Interpret && IsSpaceTab(At(s, p))) {
        return Ended(token, p);
      }
      token := token + [s[p]];
    }
    r := Continue(Scan(p + 1, state, token));
  }

  /**
   * The inner `for (;;)` of `TokenizeCommandLineToArray`: scans one argument
   * starting at `start` in interpreting mode, and returns it with the index
   * of the character that ended it.
   */
  method ScanArgument(s: string, start: nat) returns (token: string, p: nat)
    requires start <= |s|
    ensures (token, p) == ScanToken(s, Scan(start, Interpret, []))
  {
    var c := Scan(start, Interpret, []);
    while true
      invariant start <= c.p <= |s|
      invariant ScanToken(s, c) == ScanToken(s, Scan(start, Interpret, []))
      decreases |s| - c.p
    {
      var r := ScanPass(s, c);
      match r {
        case Ended(tok, end) =>
          return tok, end;
        case Continue(next) =>
          c := next;
      }
    }
  }

  /** `TokenizeCommandLineToArray`: the pointer walk of the source, proved equal to `Tokens`. */
  method TokenizeCommandLineToArray(commandLine: string) returns (result: seq<string>)
    ensures result == Tokens(commandLine)
  {
    var s := commandLine;
    var (argv0, argv0End) := Argv0(s);
    result := [argv0];
    if At(s, argv0End) == NUL {
      return;
    }
    var p: nat := argv0End + 1;
    hide ArgsFrom, ScanToken, Step;
    while true
      invariant p <= |s|
      invariant result + ArgsFrom(s, p) == Tokens(s)
      decreases |s| - p
    {
      var q := SpanSpaceTab(s, p);
      if At(s, q) == NUL {
        ArgsFromDone(s, p);
        assert result + [] == result;
        break;
      }
      ArgsFromNext(s, p);
      var token, end := ScanArgument(s, q);
      assert result + ([token] + ArgsFrom(s, end)) == result + [token] + ArgsFrom(s, end);
      result := result + [token];
      p := end;
    }
  }

  // ---------------------------------------------------------------- tokenizer rules

  /** Leading spaces and tabs before an argument are skipped. */
  lemma LeadingWhitespaceSkipped(s: string, p: nat)
    requires p < |s| && IsSpaceTab(s[p])
    ensures ArgsFrom(s, p) == ArgsFrom(s, p + 1)
  {
  }

  /** `2n` backslashes then a quote (not a `""` pair inside quotes): `n` backslashes and a mode toggle. */
  lemma EvenBackslashesThenQuote(s: string, p: nat, k: nat, st: SpecialChars, tok: string)
    requires p + k < |s| && k % 2 == 0
    requires forall i :: p <= i < p + k ==> s[i] == '\\'
    requires s[p + k] == '"'
    requires !(st == Ignore && At(s, p + k + 1) == '"')
    ensures Step(s, Scan(p, st, tok)) == Continue(Scan(p + k + 1, Toggle(st), tok + Backslashes(k / 2)))
  {
    assert SpanBackslash(s, p) == p + k;
  }

  /** `2n+1` backslashes then a quote: `n` backslashes and a literal quote, mode unchanged. */
  lemma OddBackslashesThenQuote(s: string, p: nat, k: nat, st: SpecialChars, tok: string)
    requires p + k < |s| && k % 2 == 1
    requires forall i :: p <= i < p + k ==> s[i] == '\\'
    requires s[p + k] == '"'
    ensures Step(s, Scan(p, st, tok)) == Continue(Scan(p + k + 1, st, tok + Backslashes(k / 2) + ['"']))
  {
    assert SpanBackslash(s, p) == p + k;
  }

  /** Inside quotes, `""` gives one literal quote and returns to interpreting mode. */
  lemma DoubledQuoteInQuotes(s: string, p: nat, tok: string)
    requires p + 1 < |s| && s[p] == '"' && s[p + 1] == '"'
    ensures Step(s, Scan(p, Ignore, tok)) == Continue(Scan(p + 2, Interpret, tok + ['"']))
  {
    assert SpanBackslash(s, p) == p;
    assert tok + Backslashes(0) == tok;
  }

  /**
   * Backslashes not followed by a quote are copied verbatim; the character
   * after them ends the argument if it is the terminator or an interpreted
   * space/tab, and is copied otherwise.
   */
  lemma BackslashesVerbatim(s: string, p: nat, k: nat, st: SpecialChars, tok: string)
    requires p + k <= |s|
    requires forall i :: p <= i < p + k ==> s[i] == '\\'
    requires At(s, p + k) != '\\' && At(s, p + k) != '"'
    ensures At(s, p + k) == NUL || (st == Interpret && IsSpaceTab(At(s, p + k))) ==>
      Step(s, Scan(p, st, tok)) == Ended(tok + Backslashes(k), p + k)
    ensures !(At(s, p + k) == NUL || (st == Interpret && IsSpaceTab(At(s, p + k)))) ==>
      Step(s, Scan(p, st, tok)) == Continue(Scan(p + k + 1, st, tok + Backslashes(k) + [s[p + k]]))
  {
    assert SpanBackslash(s, p) == p + k;
  }

  /** An interpreted space or tab right at the scan position ends the argument there. */
  lemma SpaceEndsArgument(s: string, p: nat, tok: string)
    requires p < |s| && IsSpaceTab(s[p])
    ensures ScanToken(s, Scan(p, Interpret, tok)) == (tok, p)
  {
    assert SpanBackslash(s, p) == p;
    assert tok + Backslashes(0) == tok;
  }

  // ---------------------------------------------------------------- quoting round trip

  /** A string that can be written between quotes and read back unchanged. */
  predicate Quotable(a: string)
  {
    (forall i :: 0 <= i < |a| ==> a[i] != '"' && a[i] != NUL) &&
    (|a| > 0 ==> a[|a| - 1] != '\\')
  }

  function Quote(a: string): string
  {
    ['"'] + a + ['"']
  }

  /** Each argument preceded by a space and quoted. */
  function JoinQuoted(args: seq<string>): string
  {
    if args == [] then [] else [' '] + Quote(args[0]) + JoinQuoted(args[1..])
  }

  /** A command line built from a quoted program name and quoted arguments. */
  function EncodeCommandLine(program: string, args: seq<string>): string
  {
    Quote(program) + JoinQuoted(args)
  }

  /** `s[p..e]` can sit between quotes: no quote or terminator, no trailing backslash. */
  predicate QuotedBody(s: string, p: nat, e: nat)
  {
    p <= e <= |s| &&
    (forall k :: p <= k < e ==> s[k] != '"' && s[k] != NUL) &&
    (e > p ==> s[e - 1] != '\\')
  }

  lemma QuotableBody(s: string, p: nat, e: nat)
    requires p <= e <= |s|
    ensures Quotable(s[p..e]) <==> QuotedBody(s, p, e)
  {
    assert forall i :: 0 <= i < e - p ==> s[p..e][i] == s[p + i];
  }

  lemma AppendSlices(t: string, s: string, i: nat, j: nat, k: nat)
    requires i <= j <= k <= |s|
    ensures t + s[i..j] + s[j..k] == t + s[i..k]
  {
    assert s[i..k] == s[i..j] + s[j..k];
  }

  /** A pass that does not end the argument leaves the rest of the scan to the next state. */
  lemma ScanTokenContinue(s: string, c: Scan)
    requires c.p <= |s| && Step(s, c).Continue?
    ensures ScanToken(s, c) == ScanToken(s, Step(s, c).next)
  {
  }

  /** A pass that ends the argument gives the scan's result. */
  lemma ScanTokenEnded(s: string, c: Scan)
    requires c.p <= |s| && Step(s, c).Ended?
    ensures ScanToken(s, c) == (Step(s, c).tok, Step(s, c).end)
  {
  }

  /** An opening quote with no backslashes before it switches to `kIgnore`. */
  lemma OpeningQuoteStep(s: string, p: nat)
    requires p < |s| && s[p] == '"'
    ensures Step(s, Scan(p, Interpret, [])) == Continue(Scan(p + 1, Ignore, []))
  {
    assert SpanBackslash(s, p) == p;
    assert [] + Backslashes(0) == [];
  }

  /** A closing quote not followed by another quote switches back to `kInterpret`. */
  lemma ClosingQuoteStep(s: string, e: nat, tok: string)
    requires e < |s| && s[e] == '"' && At(s, e + 1) != '"'
    ensures Step(s, Scan(e, Ignore, tok)) == Continue(Scan(e + 1, Interpret, tok))
  {
    assert SpanBackslash(s, e) == e;
    assert tok + Backslashes(0) == tok;
  }

  /** The terminator, or a space or tab in `kInterpret` mode, ends the argument. */
  lemma DelimiterStep(s: string, p: nat, tok: string)
    requires p <= |s| && (At(s, p) == NUL || IsSpaceTab(At(s, p)))
    ensures Step(s, Scan(p, Interpret, tok)) == Ended(tok, p)
  {
    if p < |s| {
      assert SpanBackslash(s, p) == p;
    }
    assert tok + Backslashes(0) == tok;
  }

  /** Inside quotes, one pass copies a run of backslashes and the character after it. */
  lemma StepInQuotes(s: string, p: nat, e: nat, tok: string) returns (q: nat)
    requires QuotedBody(s, p, e) && p < e < |s| && s[e] == '"'
    ensures p <= q < e
    ensures Step(s, Scan(p, Ignore, tok)) == Continue(Scan(q + 1, Ignore, tok + s[p..q + 1]))
  {
    q := SpanBackslash(s, p);
    assert q < e;
    assert s[p..q] == Backslashes(q - p);
    assert s[p..q + 1] == s[p..q] + [s[q]];
  }

  /** The rest of a quoted argument from index `p`, up to its closing quote at `e`. */
  lemma {:induction false} ScanQuotedRest(s: string, p: nat, e: nat, tok: string)
    requires QuotedBody(s, p, e) && e < |s| && s[e] == '"'
    requires At(s, e + 1) == NUL || IsSpaceTab(At(s, e + 1))
    ensures ScanToken(s, Scan(p, Ignore, tok)) == (tok + s[p..e], e + 1)
    decreases e - p
  {
    hide ScanToken, Step;
    if p == e {
      ClosingQuoteStep(s, e, tok);
      ScanTokenContinue(s, Scan(e, Ignore, tok));
      DelimiterStep(s, e + 1, tok);
      ScanTokenEnded(s, Scan(e + 1, Interpret, tok));
      assert tok + s[p..e] == tok;
    } else {
      var q := StepInQuotes(s, p, e, tok);
      var tok1 := tok + s[p..q + 1];
      ScanTokenContinue(s, Scan(p, Ignore, tok));
      ScanQuotedRest(s, q + 1, e, tok1);
      AppendSlices(tok, s, p, q + 1, e);
    }
  }

  /** A whole quoted argument: opening quote at `p`, closing quote at `e`. */
  lemma ScanQuoted(s: string, p: nat, e: nat)
    requires p < e < |s| && s[p] == '"' && s[e] == '"'
    requires At(s, e + 1) == NUL || IsSpaceTab(At(s, e + 1))
    requires QuotedBody(s, p + 1, e)
    ensures ScanToken(s, Scan(p, Interpret, [])) == (s[p + 1..e], e + 1)
  {
    hide ScanToken, Step;
    OpeningQuoteStep(s, p);
    ScanTokenContinue(s, Scan(p, Interpret, []));
    ScanQuotedRest(s, p + 1, e, []);
    assert [] + s[p + 1..e] == s[p + 1..e];
  }

  /** The argument loop stops at the terminator. */
  lemma ArgsFromDone(s: string, p: nat)
    requires p <= |s| && At(s, SpanSpaceTab(s, p)) == NUL
    ensures ArgsFrom(s, p) == []
  {
  }

  /** One round of the argument loop from a position that is not the terminator. */
  lemma ArgsFromNext(s: string, p: nat)
    requires p <= |s| && At(s, SpanSpaceTab(s, p)) != NUL
    ensures var (tok, r) := ScanToken(s, Scan(SpanSpaceTab(s, p), Interpret, []));
      ArgsFrom(s, p) == [tok] + ArgsFrom(s, r)
  {
  }

  lemma SingleSpace(s: string, p: nat)
    requires p + 1 < |s| && s[p] == ' ' && s[p + 1] == '"'
    ensures SpanSpaceTab(s, p) == p + 1
  {
    assert SpanSpaceTab(s, p + 1) == p + 1;
  }

  /** One step of the argument loop over ` "a"` followed by a delimiter. */
  lemma ArgsFromQuotedStep(s: string, p: nat, e: nat)
    requires p + 1 < e < |s| && s[p] == ' ' && s[p + 1] == '"' && s[e] == '"'
    requires At(s, e + 1) == NUL || IsSpaceTab(At(s, e + 1))
    requires QuotedBody(s, p + 2, e)
    ensures ArgsFrom(s, p) == [s[p + 2..e]] + ArgsFrom(s, e + 1)
  {
    SingleSpace(s, p);
    hide ArgsFrom, ScanToken, Step, SpanSpaceTab, QuotedBody;
    ArgsFromNext(s, p);
    ScanQuoted(s, p + 1, e);
  }

  /** Where the pieces of ` "a"` sit in `prefix + " " + Quote(a) + rest`. */
  lemma QuotedLayout(prefix: string, a: string, rest: string)
    ensures var s := prefix + [' '] + Quote(a) + rest; var p := |prefix|;
      |prefix + [' '] + Quote(a)| == p + |a| + 3 &&
      |s| == p + |a| + 3 + |rest| && s[p] == ' ' && s[p + 1] == '"' &&
      s[p + 2..p + 2 + |a|] == a && s[p + 2 + |a|] == '"' &&
      At(s, p + |a| + 3) == At(rest, 0)
  {
    var s := prefix + [' '] + Quote(a) + rest;
    var p := |prefix|;
    assert s == prefix + ([' ', '"'] + a + ['"'] + rest);
    assert s[p..] == [' ', '"'] + a + ['"'] + rest;
    assert s[p + 2..] == a + ['"'] + rest;
    assert s[p + 2..p + 2 + |a|] == s[p + 2..][..|a|];
  }

  /** The encoding of the remaining arguments is empty or starts with a space. */
  lemma JoinQuotedStart(args: seq<string>)
    ensures At(JoinQuoted(args), 0) == NUL || IsSpaceTab(At(JoinQuoted(args), 0))
  {
  }

  lemma JoinQuotedStep(prefix: string, args: seq<string>)
    requires args != []
    ensures prefix + JoinQuoted(args) == prefix + [' '] + Quote(args[0]) + JoinQuoted(args[1..])
  {
  }

  /** Nothing is left to read at the end of the line. */
  lemma ArgsFromEnd(s: string)
    ensures ArgsFrom(s, |s|) == []
  {
  }

  /** The first argument of `prefix + JoinQuoted(args)`, read from the end of `prefix`. */
  lemma ArgsFromJoinQuotedHead(prefix: string, args: seq<string>)
    requires args != [] && Quotable(args[0])
    ensures var prefix' := prefix + [' '] + Quote(args[0]);
      prefix + JoinQuoted(args) == prefix' + JoinQuoted(args[1..]) &&
      ArgsFrom(prefix + JoinQuoted(args), |prefix|) == [args[0]] + ArgsFrom(prefix + JoinQuoted(args), |prefix'|)
  {
    hide *;
    var a, rest := args[0], JoinQuoted(args[1..]);
    var s := prefix + [' '] + Quote(a) + rest;
    JoinQuotedStep(prefix, args);
    var p, e := |prefix|, |prefix| + 2 + |a|;
    QuotedLayout(prefix, a, rest);
    JoinQuotedStart(args[1..]);
    QuotableBody(s, p + 2, e);
    ArgsFromQuotedStep(s, p, e);
  }

  /** The arguments of `prefix + JoinQuoted(args)`, read from the end of `prefix`. */
  lemma {:induction false} ArgsFromJoinQuoted(prefix: string, args: seq<string>)
    requires forall i :: 0 <= i < |args| ==> Quotable(args[i])
    ensures ArgsFrom(prefix + JoinQuoted(args), |prefix|) == args
    decreases |args|
  {
    if args == [] {
      assert prefix + JoinQuoted(args) == prefix;
      ArgsFromEnd(prefix);
    } else {
      hide *;
      var prefix' := prefix + [' '] + Quote(args[0]);
      ArgsFromJoinQuotedHead(prefix, args);
      ArgsFromJoinQuoted(prefix', args[1..]);
      assert [args[0]] + args[1..] == args;
    }
  }

  /**
   * Round trip: quoting a program name and arguments and tokenizing the
   * result gives them back.
   */
  lemma TokenizeEncodeRoundTrip(program: string, args: seq<string>)
    requires forall i :: 0 <= i < |program| ==> program[i] != '"' && program[i] != NUL
    requires forall i :: 0 <= i < |args| ==> Quotable(args[i])
    ensures Tokens(EncodeCommandLine(program, args)) == [program] + args
  {
    var s := EncodeCommandLine(program, args);
    var c := |program| + 1;
    assert s[0] == '"';
    assert s[c] == '"';
    assert forall k :: 1 <= k < c ==> s[k] == program[k - 1];
    assert FindQuote(s, 1) == Some(c);
    assert s[1..c] == program;
    assert s == Quote(program) + JoinQuoted(args);
    ArgsFromJoinQuoted(Quote(program), args);
    if args == [] {
      assert |s| == c + 1;
    } else {
      assert s[c + 1] == ' ';
      assert SpanSpaceTab(s, c + 1) == c + 2;
      assert ArgsFrom(s, c + 1) == ArgsFrom(s, c + 2);
      LeadingWhitespaceSkipped(s, c + 1);
    }
  }

  // ---------------------------------------------------------------- switch lookup

  /** What a token says about switch `--name`: its value, or nothing. */
  function SwitchMatch(token: string, prefixed: string): Option<string>
  {
    if StartsWith(token, prefixed) then
      if |token| == |prefixed| then Some([])
      else if token[|prefixed|] == '=' then Some(token[|prefixed| + 1..])
      else None
    else None
  }

  /** The first token equal to "--", or the number of tokens. */
  function FindDoubleDash(tokens: seq<string>): (k: nat)
    ensures k <= |tokens|
    ensures k < |tokens| ==> tokens[k] == "--"
    ensures forall i :: 0 <= i < k ==> tokens[i] != "--"
  {
    if tokens == [] then 0
    else if tokens[0] == "--" then 0
    else 1 + FindDoubleDash(tokens[1..])
  }

  /** The reference lookup: the first matching token before `--` decides. */
  function SwitchLookup(tokens: seq<string>, name: string, from: nat): Option<string>
    requires from <= FindDoubleDash(tokens)
    decreases FindDoubleDash(tokens) - from
  {
    if from == FindDoubleDash(tokens) then None
    else match SwitchMatch(tokens[from], "--" + name)
      case Some(v) => Some(v)
      case None => SwitchLookup(tokens, name, from + 1)
  }

  function SwitchOf(tokens: seq<string>, name: string): Option<string>
  {
    SwitchLookup(tokens, name, 0)
  }

  function SwitchValueOf(tokens: seq<string>, name: string): string
  {
    match SwitchOf(tokens, name)
    case None => []
    case Some(v) => v
  }

  /** `GetCommandLineSwitch`: tokenizes, finds the lone "--", then scans the tokens before it. */
  method GetCommandLineSwitch(commandLine: string, switchName: string) returns (r: Option<string>)
    requires commandLine != [] && switchName != []
    ensures r == SwitchOf(Tokens(commandLine), switchName)
  {
    var switches := TokenizeCommandLineToArray(commandLine);
    var cend := 0;
    while cend < |switches| && switches[cend] != "--"
      invariant cend <= |switches|
      invariant forall i :: 0 <= i < cend ==> switches[i] != "--"
    {
      cend := cend + 1;
    }
    assert cend == FindDoubleDash(switches);
    var switchWithPrefix := "--" + switchName;
    var i := 0;
    while i < cend
      invariant i <= cend
      invariant SwitchLookup(switches, switchName, i) == SwitchLookup(switches, switchName, 0)
    {
      var token := switches[i];
      if StartsWith(token, switchWithPrefix) {
        if |token| == |switchWithPrefix| {
          return Some([]);
        }
        if token[|switchWithPrefix|] == '=' {
          return Some(token[|switchWithPrefix| + 1..]);
        }
      }
      i := i + 1;
    }
    return None;
  }

  /** `GetCommandLineSwitchValue`: the switch value, or empty when absent. */
  method GetCommandLineSwitchValue(commandLine: string, switchName: string) returns (v: string)
    requires commandLine != [] && switchName != []
    ensures v == SwitchValueOf(Tokens(commandLine), switchName)
    ensures SwitchOf(Tokens(commandLine), switchName).None? ==> v == []
  {
    var r := GetCommandLineSwitch(commandLine, switchName);
    v := if r.Some? then r.value else [];
  }

  /**
   * The lookup answers `Some(v)` exactly when some token before the first
   * "--" matches with value `v` and no earlier token matches.
   */
  lemma {:induction false} SwitchLookupFirstMatch(tokens: seq<string>, name: string, from: nat)
    requires from <= FindDoubleDash(tokens)
    ensures SwitchLookup(tokens, name, from).Some? <==>
      exists i :: from <= i < FindDoubleDash(tokens) && SwitchMatch(tokens[i], "--" + name).Some?
    ensures SwitchLookup(tokens, name, from).Some? ==>
      exists i :: from <= i < FindDoubleDash(tokens) &&
        SwitchMatch(tokens[i], "--" + name) == SwitchLookup(tokens, name, from) &&
        forall j :: from <= j < i ==> SwitchMatch(tokens[j], "--" + name).None?
    decreases FindDoubleDash(tokens) - from
  {
    if from < FindDoubleDash(tokens) {
      SwitchLookupFirstMatch(tokens, name, from + 1);
    }
  }

  /** Tokens after a lone "--" are never consulted. */
  lemma {:induction false} SwitchStopsAtDoubleDash(before: seq<string>, after: seq<string>, name: string)
    requires forall i :: 0 <= i < |before| ==> before[i] != "--"
    ensures SwitchOf(before + ["--"] + after, name) == SwitchOf(before + ["--"], name)
  {
    var t1 := before + ["--"] + after;
    var t2 := before + ["--"];
    assert t1[|before|] == "--" && t2[|before|] == "--";
    assert FindDoubleDash(t1) == |before| == FindDoubleDash(t2);
    var k := |before|;
    while k > 0
      invariant 0 <= k <= |before|
      invariant SwitchLookup(t1, name, k) == SwitchLookup(t2, name, k)
    {
      k := k - 1;
      assert t1[k] == t2[k];
    }
  }

  /** The three token shapes: exact `--name`, `--name=v`, and a longer name with the same prefix. */
  lemma SwitchMatchShapes(name: string, v: string, other: string)
    requires other != [] && other[0] != '='
    ensures SwitchMatch("--" + name, "--" + name) == Some([])
    ensures SwitchMatch("--" + name + "=" + v, "--" + name) == Some(v)
    ensures SwitchMatch("--" + name + other, "--" + name).None?
  {
    var t := "--" + name + "=" + v;
    assert t[..|"--" + name|] == "--" + name;
    assert t[|"--" + name| + 1..] == v;
    var u := "--" + name + other;
    assert u[..|"--" + name|] == "--" + name;
    assert u[|"--" + name|] == other[0];
  }
}
