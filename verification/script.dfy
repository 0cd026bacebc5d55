/**
  Turning a step's inline script into an executable file: the shebang test,
  the default preamble, the file's path under the scripts directory and its
  permission bits.
 */
module Script {

  /** Prepended to a script that names no interpreter: a POSIX shell that stops at the first error. */
  const DefaultScriptPreamble: string := "#!/bin/sh\nset -e\n"

  /** The directory scripts are written into. */
  const ScriptsDir: string := "/tekton/scripts"

  /** rwxr-xr-x, octal 0755. */
  const ScriptPermissions: nat := 7 * 64 + 5 * 8 + 5

  /** The interpreter directive a script may begin with. */
  const Shebang: string := "#!"

  /** Go's `unicode.IsSpace`: the Latin-1 spaces and the Unicode White_Space characters. */
  predicate IsSpace(c: char)
  {
    var n := c as int;
    || 0x09 <= n <= 0x0D
    || n == 0x20 || n == 0x85 || n == 0xA0 || n == 0x1680
    || 0x2000 <= n <= 0x200A
    || n == 0x2028 || n == 0x2029 || n == 0x202F || n == 0x205F || n == 0x3000
  }

  predicate HasPrefix(s: string, p: string)
  {
    |p| <= |s| && s[..|p|] == p
  }

  /** `s` without its leading white space. */
  function TrimLeft(s: string): (r: string)
    ensures |r| <= |s| && r == s[|s| - |r|..]
    ensures forall k :: 0 <= k < |s| - |r| ==> IsSpace(s[k])
    ensures r == [] || !IsSpace(r[0])
    decreases |s|
  {
    if |s| > 0 && IsSpace(s[0]) then TrimLeft(s[1..]) else s
  }

  /** `s` without its trailing white space. */
  function TrimRight(s: string): (r: string)
    ensures |r| <= |s| && r == s[..|r|]
    ensures forall k :: |r| <= k < |s| ==> IsSpace(s[k])
    ensures r == [] || !IsSpace(r[|r| - 1])
    decreases |s|
  {
    if |s| > 0 && IsSpace(s[|s| - 1]) then TrimRight(s[..|s| - 1]) else s
  }

  /** Go's `strings.TrimSpace`: `s` without leading and trailing white space. */
  function TrimSpace(s: string): (r: string)
    ensures r == [] || (!IsSpace(r[0]) && !IsSpace(r[|r| - 1]))
    ensures var a := |s| - |TrimLeft(s)|;
            && a + |r| <= |s| && r == s[a..a + |r|]
            && (forall k :: 0 <= k < a ==> IsSpace(s[k]))
            && (forall k :: a + |r| <= k < |s| ==> IsSpace(s[k]))
  {
    TrimRight(TrimLeft(s))
  }

  /** The script names its interpreter: after trimming white space it begins with `#!`. */
  predicate HasShebang(script: string)
  {
    HasPrefix(TrimSpace(script), Shebang)
  }

  /** Only leading white space matters to the shebang test: trimming the end never removes `#!`. */
  lemma {:induction false} ShebangIgnoresTrailingSpace(s: string)
    ensures HasShebang(s) <==> HasPrefix(TrimLeft(s), Shebang)
  {
    var t := TrimLeft(s);
    var r := TrimRight(t);
    if HasPrefix(t, Shebang) {
      assert t[1] == '!' && !IsSpace(t[1]);
      assert 2 <= |r|;
      assert r[..2] == t[..2];
    }
    if HasPrefix(r, Shebang) {
      assert t[..2] == r[..2];
    }
  }

  /** A script beginning with a non-space character is its own left trim. */
  lemma NoLeadingSpace(s: string)
    requires |s| > 0 && !IsSpace(s[0])
    ensures TrimLeft(s) == s
  {
  }

  /** The contents written to the script file for `script`. */
  function ScriptContents(script: string): string
  {
    if HasShebang(script) then script else DefaultScriptPreamble + script
  }

  /** The contents always name an interpreter: the script itself when it already does,
      otherwise the default preamble followed by the untrimmed script. */
  lemma MaterialisedScript(script: string)
    ensures HasShebang(ScriptContents(script))
    ensures HasShebang(script) ==> ScriptContents(script) == script
    ensures !HasShebang(script) ==> ScriptContents(script) == DefaultScriptPreamble + script
  {
    if !HasShebang(script) {
      var r := DefaultScriptPreamble + script;
      NoLeadingSpace(r);
      ShebangIgnoresTrailingSpace(r);
      assert r[..2] == DefaultScriptPreamble[..2];
    }
  }

  /** Materialising is idempotent: the contents already name an interpreter. */
  lemma ScriptContentsIdempotent(script: string)
    ensures ScriptContents(ScriptContents(script)) == ScriptContents(script)
  {
    MaterialisedScript(script);
  }

  /** The user's script is always kept verbatim at the end of the contents. */
  lemma ScriptIsSuffix(script: string)
    ensures var r := ScriptContents(script);
            |script| <= |r| && r[|r| - |script|..] == script
  {
  }

  /** A file name `filepath.Join` leaves untouched when joined under a directory. */
  predicate IsPlainName(name: string)
  {
    name != "" && name != "." && name != ".." && '/' !in name
  }

  /** `filepath.Join(ScriptsDir, filename)` for a plain file name. */
  function ScriptPath(filename: string): (p: string)
    requires IsPlainName(filename)
    ensures HasPrefix(p, ScriptsDir + "/")
    ensures p[|ScriptsDir| + 1..] == filename
  {
    ScriptsDir + "/" + filename
  }

  /** Distinct generated names never share a script file. */
  lemma ScriptPathInjective(f: string, g: string)
    requires IsPlainName(f) && IsPlainName(g) && f != g
    ensures ScriptPath(f) != ScriptPath(g)
  {
    assert ScriptPath(f)[|ScriptsDir| + 1..] != ScriptPath(g)[|ScriptsDir| + 1..];
  }

  /** A script that starts with neither white space nor `#` gets the shell preamble. */
  lemma PlainScriptGetsPreamble(script: string)
    requires |script| > 0 && !IsSpace(script[0]) && script[0] != '#'
    ensures ScriptContents(script) == DefaultScriptPreamble + script
  {
    NoLeadingSpace(script);
    ShebangIgnoresTrailingSpace(script);
  }

  /** The left trim skips any run of white space in front of the text. */
  lemma {:induction false} IndentDropped(indent: string, s: string)
    requires forall k :: 0 <= k < |indent| ==> IsSpace(indent[k])
    ensures TrimLeft(indent + s) == TrimLeft(s)
    decreases |indent|
  {
    if |indent| > 0 {
      assert (indent + s)[1..] == indent[1..] + s;
      IndentDropped(indent[1..], s);
    } else {
      assert indent + s == s;
    }
  }

  /** A script whose directive follows any leading white space is kept byte for byte. */
  lemma IndentedShebangKept(indent: string, rest: string)
    requires forall k :: 0 <= k < |indent| ==> IsSpace(indent[k])
    ensures ScriptContents(indent + Shebang + rest) == indent + Shebang + rest
  {
    var body := Shebang + rest;
    var script := indent + body;
    assert script == indent + Shebang + rest;
    assert TrimLeft(script) == body by {
      IndentDropped(indent, body);
      NoLeadingSpace(body);
    }
    assert HasPrefix(body, Shebang);
    ShebangIgnoresTrailingSpace(script);
  }
}
