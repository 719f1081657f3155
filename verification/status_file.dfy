/** Judging the status file of a search-head-cluster bundle push. */
module StatusFile {
  import opened Sequences

  const SUCCESS: string := "Bundle has been pushed successfully to all the cluster members.\n"
  const FIPS_BANNER: string := "FIPS provider enabled."
  const SSL_WARNING: string := "WARNING: Server Certificate"

  datatype Verdict = Success | StillRunning | Failed

  predicate IsSpace(c: char) {
    || c == '\t' || c == '\n' || c == '\U{B}' || c == '\U{C}' || c == '\r' || c == ' ' || c == '\U{85}' || c == '\U{A0}'
    || c == '\U{1680}' || '\U{2000}' <= c <= '\U{200A}' || c == '\U{2028}' || c == '\U{2029}' || c == '\U{202F}'
    || c == '\U{205F}' || c == '\U{3000}'
  }

  predicate Blank(s: string) {
    forall i :: 0 <= i < |s| ==> IsSpace(s[i])
  }

  predicate Contains(text: string, s: string) {
    exists k :: 0 <= k <= |text| && s <= text[k..]
  }

  /******* The library's string functions *******/

  function TrimLeft(s: string): string {
    if s != [] && IsSpace(s[0]) then TrimLeft(s[1..]) else s
  }

  function TrimRight(s: string): string {
    if s != [] && IsSpace(s[|s| - 1]) then TrimRight(s[..|s| - 1]) else s
  }

  function TrimSpace(s: string): string {
    TrimRight(TrimLeft(s))
  }

  /******* What the verdict means *******/

  /** The text between positions a and b is one whole line. */
  predicate IsLine(text: string, a: nat, b: nat) {
    && a <= b <= |text|
    && (a == 0 || text[a - 1] == '\n') && (b == |text| || text[b] == '\n')
    && '\n' !in text[a..b]
  }

  /** After some blanks the line goes on with s. */
  predicate StartsWith(line: string, s: string) {
    exists k :: 0 <= k <= |line| && Blank(line[..k]) && s <= line[k..]
  }

  predicate Informational(line: string, fips: bool) {
    Blank(line) || StartsWith(line, FIPS_BANNER) || (fips && StartsWith(line, SSL_WARNING))
  }

  ghost predicate OnlyInformational(text: string) {
    forall a: nat, b: nat :: IsLine(text, a, b) ==> Informational(text[a..b], Contains(text, FIPS_BANNER))
  }

  /******* Trimming *******/

  lemma {:induction false} TrimLeftShape(s: string)
    ensures |TrimLeft(s)| <= |s| && TrimLeft(s) == s[|s| - |TrimLeft(s)|..]
    ensures Blank(s[..|s| - |TrimLeft(s)|])
    ensures TrimLeft(s) != [] ==> !IsSpace(TrimLeft(s)[0])
  {
    if s == [] || !IsSpace(s[0]) {
    } else {
      TrimLeftShape(s[1..]);
      var n := |s| - |TrimLeft(s)|;
      assert s[..n] == [s[0]] + s[1..][..n - 1];
    }
  }

  lemma {:induction false} TrimRightPrefix(s: string, p: string)
    requires p != [] && !IsSpace(p[|p| - 1])
    ensures p <= TrimRight(s) <==> p <= s
    ensures TrimRight(s) == [] ==> Blank(s)
  {
    if s == [] || !IsSpace(s[|s| - 1]) {
    } else {
      TrimRightPrefix(s[..|s| - 1], p);
      if TrimRight(s) == [] { assert s == s[..|s| - 1] + [s[|s| - 1]]; }
    }
  }

  lemma {:induction false} BlankTrims(s: string)
    requires Blank(s)
    ensures TrimLeft(s) == []
  {
    if s == [] {
    } else {
      BlankTrims(s[1..]);
    }
  }

  /** The trimmed line is empty exactly when the line is blank, and begins with s exactly when the line does after
      blanks, for a text s that neither begins nor ends with a blank. */
  lemma TrimmedPrefix(line: string, s: string)
    requires s != [] && !IsSpace(s[0]) && !IsSpace(s[|s| - 1])
    ensures TrimSpace(line) == [] <==> Blank(line)
    ensures s <= TrimSpace(line) <==> StartsWith(line, s)
  {
    var left := TrimLeft(line);
    TrimRightPrefix(left, s);
    TrimmedBlank(line);
    LeftPrefix(line, s);
    hide TrimLeft, TrimRight, Blank, StartsWith;
  }

  lemma TrimmedBlank(line: string)
    ensures Blank(TrimLeft(line)) <==> Blank(line)
    ensures Blank(line) ==> TrimLeft(line) == []
  {
    var left := TrimLeft(line);
    TrimLeftShape(line);
    if Blank(line) { BlankTrims(line); }
    if Blank(left) { assert line == line[..|line| - |left|] + left; }
  }

  lemma LeftPrefix(line: string, s: string)
    requires s != [] && !IsSpace(s[0])
    ensures s <= TrimLeft(line) <==> StartsWith(line, s)
  {
    TrimLeftShape(line);
    hide TrimLeft, IsSpace;
    if k :| 0 <= k <= |line| && Blank(line[..k]) && s <= line[k..] {
      assert line[k] == s[0];
    }
  }

  lemma Markers()
    ensures !IsSpace(FIPS_BANNER[0]) && !IsSpace(FIPS_BANNER[|FIPS_BANNER| - 1])
    ensures !IsSpace(SSL_WARNING[0]) && !IsSpace(SSL_WARNING[|SSL_WARNING| - 1])
  {
    assert FIPS_BANNER[0] == 'F' && FIPS_BANNER[|FIPS_BANNER| - 1] == '.';
    assert SSL_WARNING[0] == 'W' && SSL_WARNING[|SSL_WARNING| - 1] == 'e';
  }

  /******* Lines *******/

  // The first token is the line at the start of the text.
  lemma {:induction false} FirstLine(text: string)
    ensures IsLine(text, 0, |Split(text, '\n')[0]|) && text[..|Split(text, '\n')[0]|] == Split(text, '\n')[0]
  {
    if text == [] || text[0] == '\n' {
    } else {
      FirstLine(text[1..]);
      LongerLine(text, |Split(text[1..], '\n')[0]|);
    }
  }

  lemma LongerLine(text: string, b: nat)
    requires text != [] && text[0] != '\n' && IsLine(text[1..], 0, b)
    ensures IsLine(text, 0, b + 1) && text[..b + 1] == [text[0]] + text[1..][..b]
  {
    assert text[0..b + 1] == [text[0]] + text[1..][0..b];
  }

  lemma OneFirstLine(text: string, b: nat, c: nat)
    requires IsLine(text, 0, b) && IsLine(text, 0, c)
    ensures b == c
  {
  }

  // Lines that start later are lines of the rest.
  lemma LaterLine(text: string, a: nat, b: nat)
    requires text != [] && a > 0
    ensures IsLine(text, a, b) <==> (a > 1 || text[0] == '\n') && b > 0 && IsLine(text[1..], a - 1, b - 1)
    ensures IsLine(text, a, b) ==> text[a..b] == text[1..][a - 1..b - 1]
  {
    if a <= b <= |text| { Shifted(text, a, b); }
  }

  lemma Shifted(text: string, a: nat, b: nat)
    requires 0 < a <= b <= |text|
    ensures text[a..b] == text[1..][a - 1..b - 1]
  {
    var rest := text[1..];
    assert |text[a..b]| == |rest[a - 1..b - 1]|;
    forall k | 0 <= k < b - a ensures text[a..b][k] == rest[a - 1..b - 1][k] {
      assert text[a + k] == rest[a - 1 + k];
    }
  }

  lemma {:induction false} LinesAreTokens(text: string, a: nat, b: nat)
    requires IsLine(text, a, b)
    ensures text[a..b] in Split(text, '\n')
    ensures a > 0 ==> text[a..b] in Split(text, '\n')[1..]
  {
    var lines := Split(text, '\n');
    FirstLine(text);
    if a == 0 {
      OneFirstLine(text, b, |lines[0]|);
    } else {
      LaterLine(text, a, b);
      LinesAreTokens(text[1..], a - 1, b - 1);
    }
  }

  lemma {:induction false} TokensAreLines(text: string, j: nat) returns (a: nat, b: nat)
    requires j < |Split(text, '\n')|
    ensures IsLine(text, a, b) && text[a..b] == Split(text, '\n')[j] && (j > 0 ==> a > 0)
  {
    var lines := Split(text, '\n');
    if j == 0 {
      FirstLine(text);
      a, b := 0, |lines[0]|;
    } else {
      var rest := Split(text[1..], '\n');
      a, b := TokensAreLines(text[1..], if text[0] == '\n' then j - 1 else j);
      a, b := a + 1, b + 1;
      LaterLine(text, a, b);
    }
  }

  /******* The verdict *******/

  /** Reads the status file: success if it holds the success marker; still in progress if and only if every line is
      blank, a FIPS banner line, or an SSL warning in a text that holds the banner; otherwise failed. */
  method Judge(text: string) returns (v: Verdict)
    ensures v == Success <==> Contains(text, SUCCESS)
    ensures v == StillRunning <==> !Contains(text, SUCCESS) && OnlyInformational(text)
  {
    if text == "" {
      assert forall a: nat, b: nat :: IsLine(text, a, b) ==> Blank(text[a..b]);
      return StillRunning;
    }
    if Contains(text, SUCCESS) { return Success; }
    var fips := Contains(text, FIPS_BANNER);
    var lines := Split(text, '\n');
    Markers();
    hide TrimSpace, StartsWith, Split, Contains, Blank;
    var meaningful, i := false, 0;
    while i < |lines| && !meaningful
      invariant i <= |lines|
      invariant forall k :: 0 <= k < i ==> Informational(lines[k], fips)
      invariant meaningful ==> i < |lines| && !Informational(lines[i], fips)
      decreases |lines| - i, !meaningful
    {
      var trimmed := TrimSpace(lines[i]);
      TrimmedPrefix(lines[i], FIPS_BANNER);
      TrimmedPrefix(lines[i], SSL_WARNING);
      if trimmed == "" || FIPS_BANNER <= trimmed || (fips && SSL_WARNING <= trimmed) {
        i := i + 1;
      } else {
        meaningful := true;
      }
    }
    v := if meaningful then Failed else StillRunning;
    ByLines(text, lines, i, fips);
  }

  lemma ByLines(text: string, lines: seq<string>, i: nat, fips: bool)
    requires lines == Split(text, '\n') && fips == Contains(text, FIPS_BANNER) && i <= |lines|
    requires forall k :: 0 <= k < i ==> Informational(lines[k], fips)
    requires i < |lines| ==> !Informational(lines[i], fips)
    ensures OnlyInformational(text) <==> i == |lines|
  {
    hide Informational, Contains, Split;
    if i == |lines| {
      forall a: nat, b: nat | IsLine(text, a, b) ensures Informational(text[a..b], fips) { LinesAreTokens(text, a, b); }
    } else {
      var a, b := TokensAreLines(text, i);
    }
  }
}
