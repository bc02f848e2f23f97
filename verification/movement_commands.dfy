/** The movement-command protocol of LoadModels.cs and ObjectControllerServer.cs:
    the command is `RawUrl?.Trim('/').ToLower()`, a `switch` maps it to a unit
    direction, and the reply is `Command '<command>' executed!` whatever the
    command was. Both scripts share these definitions. */
module MovementCommands {
  import opened Common

  /** Every character of `s` is a slash. */
  predicate AllSlashes(s: string) {
    forall k :: 0 <= k < |s| ==> s[k] == '/'
  }

  /** Neither end of `s` is a slash. */
  predicate Unpadded(s: string) {
    s == [] || (s[0] != '/' && s[|s| - 1] != '/')
  }

  /** Where the run of slashes starting at index `i` ends. */
  function SlashRunEnd(s: string, i: nat): (r: nat)
    requires i <= |s|
    ensures i <= r <= |s|
    ensures forall k :: i <= k < r ==> s[k] == '/'
    ensures r == |s| || s[r] != '/'
    decreases |s| - i
  {
    if i < |s| && s[i] == '/' then SlashRunEnd(s, i + 1) else i
  }

  /** Where the run of slashes ending at index `j` starts, going no lower than `lo`. */
  function SlashRunStart(s: string, lo: nat, j: nat): (r: nat)
    requires lo <= j <= |s|
    ensures lo <= r <= j
    ensures forall k :: r <= k < j ==> s[k] == '/'
    ensures r == lo || s[r - 1] != '/'
    decreases j
  {
    if lo < j && s[j - 1] == '/' then SlashRunStart(s, lo, j - 1) else j
  }

  /** How many slashes `s` starts with. */
  function LeadingSlashes(s: string): (n: nat)
    ensures n <= |s|
  {
    SlashRunEnd(s, 0)
  }

  /** `s.Trim('/')`: `s` without its leading and its trailing slashes. */
  function TrimSlashes(s: string): (r: string)
    ensures Unpadded(r)
    ensures LeadingSlashes(s) + |r| <= |s|
    ensures r == s[LeadingSlashes(s)..LeadingSlashes(s) + |r|]
    ensures AllSlashes(s[..LeadingSlashes(s)]) && AllSlashes(s[LeadingSlashes(s) + |r|..])
  {
    var start := SlashRunEnd(s, 0);
    s[start..SlashRunStart(s, start, |s|)]
  }

  /** Trimming strips exactly the padding: when every character outside
      `s[i..j]` is a slash and `s[i..j]` is unpadded, `s` trims to `s[i..j]`. */
  lemma TrimSlashesBetween(s: string, i: nat, j: nat)
    requires i <= j <= |s|
    requires forall k :: 0 <= k < i ==> s[k] == '/'
    requires forall k :: j <= k < |s| ==> s[k] == '/'
    requires Unpadded(s[i..j])
    ensures TrimSlashes(s) == s[i..j]
  {
    var start := SlashRunEnd(s, 0);
    if i == j {
      assert forall k :: 0 <= k < |s| ==> s[k] == '/';
      assert start == |s|;
    } else {
      assert s[i] == s[i..j][0] && s[j - 1] == s[i..j][j - i - 1];
      assert start == i;
      var end := SlashRunStart(s, start, |s|);
      assert end == j;
    }
  }

  /** An unpadded core surrounded by any slashes trims to that core. */
  lemma TrimSlashesUnique(before: string, core: string, after: string)
    requires AllSlashes(before) && AllSlashes(after) && Unpadded(core)
    ensures TrimSlashes(before + core + after) == core
  {
    var s := before + core + after;
    assert s[|before|..|before| + |core|] == core;
    TrimSlashesBetween(s, |before|, |before| + |core|);
  }

  /** Extra slashes around a string do not change what it trims to. */
  lemma TrimSlashesPadding(before: string, s: string, after: string)
    requires AllSlashes(before) && AllSlashes(after)
    ensures TrimSlashes(before + s + after) == TrimSlashes(s)
  {
    var core := TrimSlashes(s);
    var lead := LeadingSlashes(s);
    var t := before + s + after;
    var i, j := |before| + lead, |before| + lead + |core|;
    assert forall k :: 0 <= k < |s| ==> t[|before| + k] == s[k];
    assert forall k :: 0 <= k < lead ==> s[k] == s[..lead][k];
    assert forall k :: lead + |core| <= k < |s| ==> s[k] == s[lead + |core|..][k - lead - |core|];
    assert t[i..j] == core;
    TrimSlashesBetween(t, i, j);
  }

  /** Trimming twice trims nothing more. */
  lemma TrimSlashesIdempotent(s: string)
    ensures TrimSlashes(TrimSlashes(s)) == TrimSlashes(s)
  {
    var r := TrimSlashes(s);
    assert r[0..|r|] == r;
    TrimSlashesBetween(r, 0, |r|);
  }

  /** `char.ToLower` on the ASCII letters; every other character is kept. */
  function LowerChar(c: char): char {
    if 'A' <= c <= 'Z' then (c as int + 32) as char else c
  }

  predicate IsUpperAscii(c: char) {
    'A' <= c <= 'Z'
  }

  /** `s.ToLower()`: same length, each upper-case letter replaced by its lower-case form. */
  function ToLower(s: string): (r: string)
    ensures |r| == |s|
    ensures forall k :: 0 <= k < |s| ==> r[k] == LowerChar(s[k])
    ensures forall k :: 0 <= k < |r| ==> !IsUpperAscii(r[k])
  {
    seq(|s|, k requires 0 <= k < |s| => LowerChar(s[k]))
  }

  /** `RawUrl?.Trim('/').ToLower()`: a null URL gives a null command. */
  function NormalizeCommand(rawUrl: Option<string>): (command: Option<string>)
    ensures command.Some? <==> rawUrl.Some?
    ensures command.Some? ==> command.value == ToLower(TrimSlashes(rawUrl.value))
  {
    match rawUrl
    case None => None
    case Some(url) => Some(ToLower(TrimSlashes(url)))
  }

  /** Surrounding slashes never change the command: `//LEFT/` and `LEFT` both give `left`. */
  lemma SlashPaddingIgnored(before: string, url: string, after: string)
    requires AllSlashes(before) && AllSlashes(after)
    ensures NormalizeCommand(Some(before + url + after)) == NormalizeCommand(Some(url))
  {
    TrimSlashesPadding(before, url, after);
  }

  /** The `switch` of `HandleRequest`: the four movement commands and their unit
      directions; any other command, and a null one, matches no case. */
  function DirectionOf(command: Option<string>): (d: Option<Vec3>)
    ensures d.Some? <==> command.Some? && command.value in {"left", "right", "up", "down"}
    ensures command == Some("left") ==> d == Some(Left)
    ensures command == Some("right") ==> d == Some(Right)
    ensures command == Some("up") ==> d == Some(Up)
    ensures command == Some("down") ==> d == Some(Down)
  {
    match command
    case Some("left") => Some(Left)
    case Some("right") => Some(Right)
    case Some("up") => Some(Up)
    case Some("down") => Some(Down)
    case _ => None
  }

  /** The four commands map to four different directions, so the direction
      identifies the command. */
  lemma DirectionIdentifiesCommand(c1: Option<string>, c2: Option<string>)
    requires DirectionOf(c1).Some? && DirectionOf(c1) == DirectionOf(c2)
    ensures c1 == c2
  {
  }

  /** The movement direction after a request: the command's direction, or the
      previous direction when the command is unknown. */
  function NextDirection(current: Vec3, command: Option<string>): (d: Vec3)
    ensures DirectionOf(command).None? ==> d == current
    ensures DirectionOf(command).Some? ==> d == DirectionOf(command).value
  {
    match DirectionOf(command)
    case Some(dir) => dir
    case None => current
  }

  const ResponsePrefix: string := "Command '"
  const ResponseSuffix: string := "' executed!"

  /** `$"Command '{command}' executed!"`; a null command interpolates as empty. */
  function ResponseText(command: Option<string>): (text: string)
    ensures |text| == |ResponsePrefix| + |ResponseSuffix| + (if command.Some? then |command.value| else 0)
  {
    ResponsePrefix + (match command case Some(c) => c case None => "") + ResponseSuffix
  }

  /** The command echoed in a response text. */
  function EchoedCommand(text: string): string
    requires |ResponsePrefix| + |ResponseSuffix| <= |text|
  {
    text[|ResponsePrefix|..|text| - |ResponseSuffix|]
  }

  /** Every response, for a known or an unknown command, has the fixed frame and
      echoes the command exactly. */
  lemma {:induction false} ResponseEchoesCommand(command: string)
    ensures ResponseText(Some(command))[..|ResponsePrefix|] == ResponsePrefix
    ensures ResponseText(Some(command))[|ResponsePrefix| + |command|..] == ResponseSuffix
    ensures EchoedCommand(ResponseText(Some(command))) == command
  {
    var t := ResponseText(Some(command));
    assert t == ResponsePrefix + command + ResponseSuffix;
    assert t[|ResponsePrefix|..|t| - |ResponseSuffix|] == command;
  }

  /** The example of the protocol: `//LEFT/` is the command `left`, moving left. */
  lemma MixedCaseExample()
    ensures NormalizeCommand(Some("//LEFT/")) == Some("left")
    ensures DirectionOf(NormalizeCommand(Some("//LEFT/"))) == Some(Left)
  {
    TrimExample();
    LowerExample();
  }

  lemma TrimExample()
    ensures TrimSlashes("//LEFT/") == "LEFT"
  {
    assert "//LEFT/" == "//" + "LEFT" + "/";
    TrimSlashesUnique("//", "LEFT", "/");
  }

  lemma LowerExample()
    ensures ToLower("LEFT") == "left"
  {
    var lower := ToLower("LEFT");
    assert lower[0] == 'l' && lower[1] == 'e' && lower[2] == 'f' && lower[3] == 't';
  }
}
