// Choice of the script engine from the script path's file extension
// (ScriptRunner.main): the text after the last '.', lower-cased, picks one
// of four engines, and every other extension falls back to Groovy.

module ScriptEngines {

  /** The engines the runner can be configured with. */
  datatype ScriptEngine = ECMAScript | Python | Ruby | Lua | Groovy

  /** The engine name written into the processor's "Script Engine" property. */
  function EngineName(e: ScriptEngine): string
  {
    match e
    case ECMAScript => "ECMAScript"
    case Python => "python"
    case Ruby => "ruby"
    case Lua => "lua"
    case Groovy => "Groovy"
  }

  /** Lower-casing of one character (letters A-Z only). */
  function LowerChar(c: char): char
  {
    if 'A' <= c <= 'Z' then (c - 'A' + 'a') as char else c
  }

  /** String.toLowerCase, on the ASCII letters. */
  function ToLower(s: string): (r: string)
    ensures |r| == |s|
    ensures forall i :: 0 <= i < |s| ==> r[i] == LowerChar(s[i])
  {
    seq(|s|, i requires 0 <= i < |s| => LowerChar(s[i]))
  }

  /** String.lastIndexOf: the index of the last occurrence of c, or -1. */
  function LastIndexOf(s: string, c: char): (r: int)
    ensures -1 <= r < |s|
    ensures r == -1 <==> c !in s
    ensures 0 <= r ==> s[r] == c && c !in s[r + 1..]
  {
    if s == [] then -1
    else if s[|s| - 1] == c then |s| - 1
    else
      assert s == s[..|s| - 1] + [s[|s| - 1]];
      LastIndexOf(s[..|s| - 1], c)
  }

  /** Lower-casing never introduces a '.'. */
  lemma ToLowerKeepsDotFree(s: string)
    requires '.' !in s
    ensures '.' !in ToLower(s)
  {
    var l := ToLower(s);
    forall i | 0 <= i < |l| ensures l[i] != '.' {
      assert s[i] != '.';
    }
  }

  /** The extension of a path: everything after its last '.', lower-cased;
      the whole lower-cased path when it has no '.'. */
  function Extension(path: string): (ext: string)
    ensures '.' !in ext
    ensures |ext| <= |path|
  {
    var raw := path[LastIndexOf(path, '.') + 1..];
    ToLowerKeepsDotFree(raw);
    ToLower(raw)
  }

  /** The engine configured for a script path: js, py, rb and lua select
      their engines and anything else selects Groovy. */
  function SelectEngine(path: string): (engine: ScriptEngine)
    ensures engine == ECMAScript <==> Extension(path) == "js"
    ensures engine == Python <==> Extension(path) == "py"
    ensures engine == Ruby <==> Extension(path) == "rb"
    ensures engine == Lua <==> Extension(path) == "lua"
  {
    var extension := Extension(path);
    if extension == "js" then ECMAScript
    else if extension == "py" then Python
    else if extension == "rb" then Ruby
    else if extension == "lua" then Lua
    else Groovy
  }

  /** The selection is total and lands on one of the five engine names;
      Groovy exactly when the extension is none of the four known ones. */
  lemma SelectEngineTotal(path: string)
    ensures EngineName(SelectEngine(path)) in {"ECMAScript", "python", "ruby", "lua", "Groovy"}
    ensures SelectEngine(path) == Groovy <==> Extension(path) !in {"js", "py", "rb", "lua"}
  {
  }

  /** The last occurrence of c in s + t lies in t when t contains c. */
  lemma {:induction false} LastIndexOfAppend(s: string, t: string, c: char)
    requires c in t
    ensures LastIndexOf(s + t, c) == |s| + LastIndexOf(t, c)
  {
    var u := s + t;
    if t[|t| - 1] != c {
      var t' := t[..|t| - 1];
      assert t == t' + [t[|t| - 1]];
      assert c in t';
      assert u[..|u| - 1] == s + t';
      LastIndexOfAppend(s, t', c);
    }
  }

  /** A path written as prefix + "." + ext, with no '.' in ext, has the
      lower-cased ext as its extension, whatever the prefix holds. */
  lemma ExtensionOfSuffix(prefix: string, ext: string)
    requires '.' !in ext
    ensures Extension(prefix + "." + ext) == ToLower(ext)
  {
    var path := prefix + "." + ext;
    assert path == prefix + ("." + ext);
    LastIndexOfAppend(prefix, "." + ext, '.');
    assert LastIndexOf("." + ext, '.') == 0 by {
      assert ("." + ext)[0] == '.';
      assert ("." + ext)[1..] == ext;
    }
    assert path[|prefix| + 1..] == ext;
  }

  /** A path without any '.' is its own (lower-cased) extension. */
  lemma ExtensionWithoutDot(path: string)
    requires '.' !in path
    ensures Extension(path) == ToLower(path)
  {
    assert path[0..] == path;
  }

  /** Lower-casing never moves the last '.'. */
  lemma {:induction false} LastIndexOfLower(s: string)
    ensures LastIndexOf(ToLower(s), '.') == LastIndexOf(s, '.')
  {
    if s != [] {
      var l := ToLower(s);
      assert l[|l| - 1] == LowerChar(s[|s| - 1]);
      if s[|s| - 1] != '.' {
        assert ToLower(s[..|s| - 1]) == l[..|l| - 1];
        LastIndexOfLower(s[..|s| - 1]);
      }
    }
  }

  /** Lower-casing commutes with taking a suffix. */
  lemma ToLowerSuffix(s: string, k: nat)
    requires k <= |s|
    ensures ToLower(s)[k..] == ToLower(s[k..])
  {
  }

  /** Lower-casing twice is lower-casing once. */
  lemma ToLowerIdempotent(s: string)
    ensures ToLower(ToLower(s)) == ToLower(s)
  {
  }

  /** Lower-casing leaves no ASCII capital behind and changes nothing else. */
  lemma ToLowerLeavesNoCapital(s: string)
    ensures forall i :: 0 <= i < |s| ==> !('A' <= ToLower(s)[i] <= 'Z')
    ensures forall i :: 0 <= i < |s| && !('A' <= s[i] <= 'Z') ==> ToLower(s)[i] == s[i]
  {
  }

  /** Engine selection ignores the case of the path: x.JS and x.js both
      select ECMAScript. */
  lemma SelectEngineIgnoresCase(path: string)
    ensures SelectEngine(ToLower(path)) == SelectEngine(path)
  {
    ExtensionIgnoresCase(path);
  }

  /** Lower-casing the path first leaves its extension as it was. */
  lemma ExtensionIgnoresCase(path: string)
    ensures Extension(ToLower(path)) == Extension(path)
  {
    var lower := ToLower(path);
    var k := LastIndexOf(path, '.') + 1;
    LastIndexOfLower(path);
    assert LastIndexOf(lower, '.') + 1 == k;
    ToLowerSuffix(path, k);
    ToLowerIdempotent(path[k..]);
    assert Extension(lower) == ToLower(lower[k..]);
    assert Extension(path) == ToLower(path[k..]);
  }

  /** An upper-case extension selects the same engine: x.JS runs as ECMAScript. */
  lemma UpperCaseJavaScript()
    ensures SelectEngine("x.JS") == ECMAScript
  {
    ExtensionOfSuffix("x", "JS");
    assert "x.JS" == "x" + "." + "JS";
    assert ToLower("JS") == "js";
  }
}
