/** gatepoint/__main__.py: `to_path`, which turns a user-supplied name into a
    file name that is safe on every platform. */
module Filenames {
  import opened Wrappers

  /** The characters the translation table maps to `-`; `/` and `\` are
      deliberately not among them. */
  const ForbiddenChars: set<char> := {'<', '>', ':', '"', '|', '?', '*'}

  /** Code points 0 to 31, which the table deletes. */
  predicate IsControl(c: char) {
    (c as int) < 32
  }

  /** A name with no forbidden or control character left. */
  predicate Clean(s: string) {
    forall i :: 0 <= i < |s| ==> s[i] !in ForbiddenChars && !IsControl(s[i])
  }

  /** `_base_table`: each forbidden character to `-`, each control character
      to `None` (deletion). */
  const BaseTable: map<char, Option<char>> :=
    (map c | c in ForbiddenChars :: Some('-')) + (map c: char | 0 <= c as int < 32 :: None)

  /** What the table says about one character. */
  lemma BaseTableMeaning(c: char)
    ensures c in BaseTable <==> c in ForbiddenChars || IsControl(c)
    ensures c in BaseTable && IsControl(c) ==> BaseTable[c] == None
    ensures c in BaseTable && !IsControl(c) ==> BaseTable[c] == Some('-')
  {
  }

  /** `str.translate` on one character. */
  function TranslateChar(c: char): (r: string)
    ensures IsControl(c) ==> r == []
    ensures c in ForbiddenChars ==> r == "-"
    ensures !IsControl(c) && c !in ForbiddenChars ==> r == [c]
  {
    BaseTableMeaning(c);
    if c in BaseTable then
      match BaseTable[c]
      case Some(d) => [d]
      case None => []
    else [c]
  }

  /** `name.translate(_translation_table)`: nothing forbidden survives, and the
      name only gets shorter, exactly when it held a control character. */
  function Translate(s: string): (r: string)
    ensures |r| <= |s|
    ensures Clean(r)
    ensures |r| == |s| <==> forall i :: 0 <= i < |s| ==> !IsControl(s[i])
  {
    if s == [] then []
    else
      var rest := Translate(s[1..]);
      assert forall i :: 1 <= i < |s| ==> s[i] == s[1..][i - 1];
      TranslateChar(s[0]) + rest
  }

  /** An independent statement of the table: replace forbidden characters by
      `-` position for position ... */
  function ReplaceForbidden(s: string): (r: string)
    ensures |r| == |s|
  {
    seq(|s|, i requires 0 <= i < |s| => if s[i] in ForbiddenChars then '-' else s[i])
  }

  /** ... then drop the control characters, keeping the rest in order. */
  function DropControls(s: string): string {
    if s == [] then [] else (if IsControl(s[0]) then [] else [s[0]]) + DropControls(s[1..])
  }

  /** The table-driven translation is the two-step reference definition. */
  lemma {:induction false} TranslateMatchesReference(s: string)
    ensures Translate(s) == DropControls(ReplaceForbidden(s))
  {
    if s != [] {
      TranslateMatchesReference(s[1..]);
      assert ReplaceForbidden(s)[1..] == ReplaceForbidden(s[1..]);
      var c := s[0];
      assert ReplaceForbidden(s)[0] == if c in ForbiddenChars then '-' else c;
    }
  }

  /** A clean name translates to itself, so translating is idempotent. */
  lemma {:induction false} TranslateFixesClean(s: string)
    requires Clean(s)
    ensures Translate(s) == s
  {
    if s != [] {
      assert Clean(s[1..]) by {
        forall i | 0 <= i < |s[1..]| ensures s[1..][i] !in ForbiddenChars && !IsControl(s[1..][i]) {
          assert s[1..][i] == s[i + 1];
        }
      }
      TranslateFixesClean(s[1..]);
      assert [s[0]] + s[1..] == s;
    }
  }

  /** Slashes and backslashes pass through, as does every ordinary character. */
  lemma SlashesPassThrough(s: string)
    ensures Translate("/") == "/" && Translate("\\") == "\\"
    ensures Translate(s + "/") == Translate(s) + "/"
  {
    OrdinaryPassesThrough('/');
    OrdinaryPassesThrough('\\');
    assert "/" == ['/'] && "\\" == ['\\'];
    TranslateAppend(s, "/");
  }

  /** A one-character name that is neither forbidden nor a control character is kept. */
  lemma OrdinaryPassesThrough(c: char)
    requires !IsControl(c) && c !in ForbiddenChars
    ensures Translate([c]) == [c]
  {
    assert [c][1..] == [];
    assert TranslateChar(c) == [c];
  }

  /** Translation works character by character, so it distributes over concatenation. */
  lemma {:induction false} TranslateAppend(s: string, t: string)
    ensures Translate(s + t) == Translate(s) + Translate(t)
  {
    if s != [] {
      assert (s + t)[1..] == s[1..] + t;
      TranslateAppend(s[1..], t);
      assert (s + t)[0] == s[0];
    } else {
      assert s + t == t;
    }
  }

  /** `name.replace(' ', '-')`. */
  function ReplaceSpaces(s: string): (r: string)
    ensures |r| == |s|
    ensures forall i :: 0 <= i < |s| ==> r[i] == if s[i] == ' ' then '-' else s[i]
    ensures ' ' !in r
  {
    seq(|s|, i requires 0 <= i < |s| => if s[i] == ' ' then '-' else s[i])
  }

  /** ASCII upper-casing, the part of `str.upper` that can produce a reserved name. */
  function Upper(s: string): (r: string)
    ensures |r| == |s|
  {
    seq(|s|, i requires 0 <= i < |s| => if 'a' <= s[i] <= 'z' then (s[i] as int - 32) as char else s[i])
  }

  /** The device names Windows reserves. */
  const Reserved: set<string> := {
    "CON", "PRN", "AUX", "NUL",
    "COM1", "COM2", "COM3", "COM4", "COM5", "COM6", "COM7", "COM8", "COM9",
    "LPT1", "LPT2", "LPT3", "LPT4", "LPT5", "LPT6", "LPT7", "LPT8", "LPT9"}

  /** The test `to_path` applies on win32. */
  predicate IsReservedName(s: string) {
    |s| <= 4 && Upper(s) in Reserved
  }

  /** Upper-casing an upper-case name changes nothing. */
  lemma UpperIdempotent(s: string)
    ensures Upper(Upper(s)) == Upper(s)
  {
  }

  /** The reserved-name test ignores case, and only short names can fail it. */
  lemma ReservedIgnoresCase(s: string)
    ensures IsReservedName(s) <==> IsReservedName(Upper(s))
    ensures IsReservedName(s) ==> 3 <= |s| <= 4
  {
    UpperIdempotent(s);
  }

  /** Every reserved name has three letters, or four ending in a digit. */
  lemma ReservedEndInLetterOrDigit(s: string)
    requires |s| == 4 && !('1' <= s[3] <= '9')
    ensures s !in Reserved
  {
    forall e | e in Reserved
      ensures |e| == 3 || '1' <= e[3] <= '9'
    {
    }
  }

  const ReservedMessage := "invalid directory name given, use a different one"

  /** Translation, then the optional space replacement. */
  function Sanitise(name: string, replaceSpaces: bool): (r: string)
    ensures Clean(r) && |r| <= |name|
    ensures replaceSpaces ==> ' ' !in r
    ensures !replaceSpaces ==> (|r| == |name| <==> forall i :: 0 <= i < |name| ==> !IsControl(name[i]))
  {
    var t := Translate(name);
    if replaceSpaces then
      var r := ReplaceSpaces(t);
      assert forall i :: 0 <= i < |r| ==> r[i] == t[i] || r[i] == '-';
      r
    else t
  }

  /** `to_path(parser, name, replace_spaces)` as written: on win32 a reserved
      device name is rejected (`parser.error`) before translation. */
  function ToPath(name: string, replaceSpaces: bool, win32: bool): (r: Result<string, string>)
    ensures r.Err? <==> win32 && IsReservedName(name)
    ensures r.Err? ==> r.error == ReservedMessage
    ensures r.Ok? ==> r.value == Sanitise(name, replaceSpaces)
    ensures r.Ok? ==> Clean(r.value) && |r.value| <= |name|
    ensures r.Ok? && replaceSpaces ==> ' ' !in r.value
    ensures r.Ok? && !replaceSpaces ==> (|r.value| == |name| <==> forall i :: 0 <= i < |name| ==> !IsControl(name[i]))
  {
    if win32 && IsReservedName(name) then Err(ReservedMessage)
    else Ok(Sanitise(name, replaceSpaces))
  }

  /** A sanitised name is a fixed point of sanitising. */
  lemma {:induction false} SanitiseIdempotent(name: string, replaceSpaces: bool)
    ensures Sanitise(Sanitise(name, replaceSpaces), replaceSpaces) == Sanitise(name, replaceSpaces)
  {
    var r := Sanitise(name, replaceSpaces);
    TranslateFixesClean(r);
    if replaceSpaces {
      assert ReplaceSpaces(r) == r;
    }
  }

  /** Off win32, `to_path` is idempotent; on win32 a second call may reject
      what the first one returned. */
  lemma ToPathIdempotentOffWindows(name: string, replaceSpaces: bool)
    ensures ToPath(ToPath(name, replaceSpaces, false).value, replaceSpaces, false) == ToPath(name, replaceSpaces, false)
  {
    SanitiseIdempotent(name, replaceSpaces);
  }

  /** The win32 check runs before translation, so `CON` followed by a control
      character passes it and comes out as the reserved name `CON`. */
  lemma ToPathLetsReservedThrough()
    ensures ToPath("CON\U{1}", false, true) == Ok("CON")
    ensures IsReservedName("CON")
    ensures ToPath(ToPath("CON\U{1}", false, true).value, false, true).Err?
  {
    ControlSuffixPassesCheck();
    ConIsReserved();
  }

  /** `CON` plus a control character is not reserved, but sanitises to `CON`. */
  lemma ControlSuffixPassesCheck()
    ensures !IsReservedName("CON\U{1}")
    ensures Sanitise("CON\U{1}", false) == "CON"
  {
    ControlSuffixNotReserved();
    ControlSuffixTranslated();
  }

  lemma ControlSuffixNotReserved()
    ensures !IsReservedName("CON\U{1}")
  {
    assert Upper("CON\U{1}") == "CON\U{1}";
    ReservedEndInLetterOrDigit("CON\U{1}");
  }

  lemma ControlSuffixTranslated()
    ensures Translate("CON\U{1}") == "CON"
  {
    assert "CON\U{1}" == "CON" + ['\U{1}'];
    assert Clean("CON");
    DropTrailingControl("CON", '\U{1}');
  }

  /** A clean name followed by a control character translates to the clean name. */
  lemma DropTrailingControl(s: string, c: char)
    requires Clean(s) && IsControl(c)
    ensures Translate(s + [c]) == s
  {
    TranslateAppend(s, [c]);
    TranslateFixesClean(s);
    assert Translate([c]) == [];
  }

  lemma ConIsReserved()
    ensures IsReservedName("CON")
  {
    assert Upper("CON") == "CON";
  }

  /** `to_path` with the reserved-name check applied to the name it is about
      to return, so that no reserved device name ever comes out on win32. */
  function ToPathChecked(name: string, replaceSpaces: bool, win32: bool): (r: Result<string, string>)
    ensures r.Err? <==> win32 && IsReservedName(Sanitise(name, replaceSpaces))
    ensures r.Err? ==> r.error == ReservedMessage
    ensures r.Ok? ==> r.value == Sanitise(name, replaceSpaces)
    ensures r.Ok? ==> Clean(r.value) && |r.value| <= |name|
    ensures r.Ok? && win32 ==> !IsReservedName(r.value)
    ensures r.Ok? && replaceSpaces ==> ' ' !in r.value
  {
    var s := Sanitise(name, replaceSpaces);
    if win32 && IsReservedName(s) then Err(ReservedMessage) else Ok(s)
  }

  /** The checked form is idempotent on every platform. */
  lemma ToPathCheckedIdempotent(name: string, replaceSpaces: bool, win32: bool)
    requires ToPathChecked(name, replaceSpaces, win32).Ok?
    ensures ToPathChecked(ToPathChecked(name, replaceSpaces, win32).value, replaceSpaces, win32)
         == ToPathChecked(name, replaceSpaces, win32)
  {
    SanitiseIdempotent(name, replaceSpaces);
  }
}
