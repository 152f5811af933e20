/** Opt-in loading of a local `.env` file into the process environment.

    The environment is an object whose variable map the loader updates in place.
    The file is given as its lines (None when it does not exist), since reading it
    is I/O. */
module Env {
  import opened Common

  /** One `KEY=VALUE` assignment of a `.env` file. */
  datatype Entry = Entry(key: string, value: string)

  /** The flags that switch loading on, after stripping and lower-casing. */
  const EnabledFlags: set<string> := {"1", "true", "yes"}

  /** Whether the LOAD_DOTENV value switches loading on. */
  predicate Enabled(flag: Option<string>) {
    Lower(Strip(OrEmpty(flag))) in EnabledFlags
  }

  /** The value of a variable, or None when it is unset (os.getenv). */
  function Getenv(vars: map<string, string>, name: string): (r: Option<string>)
    ensures r.Some? <==> name in vars
    ensures r.Some? ==> r.value == vars[name]
  {
    if name in vars then Some(vars[name]) else None
  }

  /** The value part of an assignment: whitespace, then double quotes, then single
      quotes are stripped from both ends. */
  function CleanValue(raw: string): string {
    StripChar(StripChar(Strip(raw), '"'), '\'')
  }

  /** The assignment one line of the file makes: None for a blank line, a comment,
      a line without '=', or a line whose key is blank. The line is split at its
      first '='. */
  function ParseLine(raw: string): (r: Option<Entry>)
    ensures r.Some? ==> r.value.key != "" && '=' !in r.value.key
    ensures r.Some? ==> !IsSpace(r.value.key[0]) && !IsSpace(r.value.key[|r.value.key| - 1])
    ensures Strip(raw) == "" ==> r.None?
    ensures '=' !in raw ==> r.None?
  {
    var line := Strip(raw);
    if line == "" || StartsWith(line, "#") then None
    else match IndexOf(line, '=')
      case None => None
      case Some(k) =>
        var key := Strip(line[..k]);
        if key == "" then None
        else
          assert '=' !in key by { StripInside(line[..k]); }
          Some(Entry(key, CleanValue(line[k + 1..])))
  }

  /** Every character of Strip(s) is a character of s. */
  lemma StripInside(s: string)
    ensures forall c :: c in Strip(s) ==> c in s
  {
    var l := StripLeft(s);
    assert l == s[|s| - |l|..];
    assert Strip(s) == l[..|Strip(s)|];
    forall c | c in Strip(s) ensures c in s {
      var i :| 0 <= i < |Strip(s)| && Strip(s)[i] == c;
      assert l[i] == c;
      assert s[|s| - |l| + i] == c;
    }
  }

  /** What each line of the file assigns. */
  function ParseAll(lines: seq<string>): seq<Option<Entry>> {
    seq(|lines|, i requires 0 <= i < |lines| => ParseLine(lines[i]))
  }

  /** The variables after the assignments have been applied in order to env: an
      assignment takes effect only when its key is not already set, either in the
      environment the loader started from or by an earlier line. */
  function Merge(env: map<string, string>, entries: seq<Option<Entry>>): map<string, string> {
    if entries == [] then env
    else Assign(Merge(env, entries[..|entries| - 1]), entries[|entries| - 1])
  }

  /** One line's effect: its assignment, unless the key is already set. */
  function Assign(m: map<string, string>, entry: Option<Entry>): map<string, string> {
    match entry
      case Some(e) => if e.key in m then m else m[e.key := e.value]
      case None => m
  }

  lemma MergePrefix(env: map<string, string>, entries: seq<Option<Entry>>, i: nat)
    requires i < |entries|
    ensures Merge(env, entries[..i + 1]) == Assign(Merge(env, entries[..i]), entries[i])
  {
    assert entries[..i + 1][..i] == entries[..i];
  }

  /** The keys that the assignments set. */
  ghost function KeysOf(entries: seq<Option<Entry>>): set<string> {
    set i | 0 <= i < |entries| && entries[i].Some? :: entries[i].value.key
  }

  lemma KeysOfLast(entries: seq<Option<Entry>>)
    requires entries != []
    ensures var n := |entries| - 1;
            KeysOf(entries) == KeysOf(entries[..n]) + (if entries[n].Some? then {entries[n].value.key} else {})
  {
    var n := |entries| - 1;
    var p := entries[..n];
    forall k | k in KeysOf(entries) ensures k in KeysOf(p) || (entries[n].Some? && k == entries[n].value.key) {
      var i :| 0 <= i < |entries| && entries[i].Some? && entries[i].value.key == k;
      if i < n { assert p[i] == entries[i]; }
    }
    forall k | k in KeysOf(p) ensures k in KeysOf(entries) {
      var i :| 0 <= i < |p| && p[i].Some? && p[i].value.key == k;
      assert entries[i] == p[i];
    }
  }

  /** The loader never overwrites a variable that was already set, and the only
      keys it adds are keys the file assigns. */
  lemma {:induction false} MergePreserves(env: map<string, string>, entries: seq<Option<Entry>>)
    ensures forall k :: k in env ==> k in Merge(env, entries) && Merge(env, entries)[k] == env[k]
    ensures Merge(env, entries).Keys == env.Keys + KeysOf(entries)
    decreases |entries|
  {
    if entries != [] {
      MergePreserves(env, entries[..|entries| - 1]);
      KeysOfLast(entries);
    }
  }

  /** Of several lines with the same key, the first one wins: the value of a key
      the environment did not have is the value of the first line that assigns it. */
  lemma {:induction false} MergeFirstWins(env: map<string, string>, entries: seq<Option<Entry>>, i: nat)
    requires i < |entries| && entries[i].Some? && entries[i].value.key !in env
    requires forall j :: 0 <= j < i && entries[j].Some? ==> entries[j].value.key != entries[i].value.key
    ensures entries[i].value.key in Merge(env, entries)
    ensures Merge(env, entries)[entries[i].value.key] == entries[i].value.value
    decreases |entries|
  {
    var e := entries[i].value;
    var n := |entries| - 1;
    var p := entries[..n];
    if i == n {
      MergePreserves(env, p);
      forall j | 0 <= j < |p| && p[j].Some? ensures p[j].value.key != e.key {
        assert p[j] == entries[j];
      }
    } else {
      assert p[i] == entries[i];
      forall j | 0 <= j < i && p[j].Some? ensures p[j].value.key != e.key {
        assert p[j] == entries[j];
      }
      MergeFirstWins(env, p, i);
      MergePreserves(env, p);
    }
  }

  /** The line a `.env` file holds for an entry. */
  function Serialize(e: Entry): string {
    e.key + "=" + e.value
  }

  /** An entry that survives being written as a line and read back: a key that is
      non-blank, has no '=' and does not start a comment, and a value without
      surrounding whitespace or quotes. */
  ghost predicate Writable(e: Entry) {
    && e.key != "" && '=' !in e.key && e.key[0] != '#'
    && !IsSpace(e.key[0]) && !IsSpace(e.key[|e.key| - 1])
    && (e.value != "" ==> !IsSpace(e.value[0]) && !IsSpace(e.value[|e.value| - 1]))
    && (e.value != "" ==> e.value[0] != '"' && e.value[|e.value| - 1] != '"')
    && (e.value != "" ==> e.value[0] != '\'' && e.value[|e.value| - 1] != '\'')
  }

  /** Exactly four kinds of line assign nothing: blank lines, comments (a '#'
      once stripped), lines without '=', and lines whose key before the first '='
      is blank. */
  lemma ParseLineNone(raw: string)
    ensures var line := Strip(raw);
            ParseLine(raw).None? <==>
              || line == ""
              || StartsWith(line, "#")
              || '=' !in line
              || (IndexOf(line, '=').Some? && Strip(line[..IndexOf(line, '=').value]) == "")
  {
  }

  /** ParseLine on a line that does assign something. */
  lemma ParseLineAssigns(raw: string, k: nat)
    requires Strip(raw) != "" && !StartsWith(Strip(raw), "#")
    requires IndexOf(Strip(raw), '=') == Some(k)
    requires Strip(Strip(raw)[..k]) != ""
    ensures ParseLine(raw) == Some(Entry(Strip(Strip(raw)[..k]), CleanValue(Strip(raw)[k + 1..])))
  {
  }

  lemma CleanValueId(v: string)
    requires v != "" ==> !IsSpace(v[0]) && !IsSpace(v[|v| - 1])
    requires v != "" ==> v[0] != '"' && v[|v| - 1] != '"'
    requires v != "" ==> v[0] != '\'' && v[|v| - 1] != '\''
    ensures CleanValue(v) == v
  {
    StripId(v);
    StripCharId(v, '"');
    StripCharId(v, '\'');
  }

  lemma SerializeShape(e: Entry)
    requires e.key != "" && '=' !in e.key
    ensures var line := Serialize(e);
            && line[0] == e.key[0]
            && line[|line| - 1] == (if e.value == "" then '=' else e.value[|e.value| - 1])
            && line[..|e.key|] == e.key && line[|e.key| + 1..] == e.value
            && IndexOf(line, '=') == Some(|e.key|)
  {
    var line := Serialize(e);
    assert line[..|e.key|] == e.key;
    assert line[|e.key|] == '=';
    assert line[|e.key| + 1..] == e.value;
  }

  /** Reading back a written entry gives the entry, so a value may itself contain
      '=': only the first '=' of a line separates key from value. */
  lemma ParseSerialize(e: Entry)
    requires Writable(e)
    ensures ParseLine(Serialize(e)) == Some(e)
  {
    var line := Serialize(e);
    SerializeShape(e);
    StripId(line);
    assert !StartsWith(line, "#") by { assert line[..1] == [e.key[0]]; }
    StripId(e.key);
    CleanValueId(e.value);
    ParseLineAssigns(line, |e.key|);
  }

  /** A string padded by one whitespace character at each end strips to its inside. */
  lemma StripOneEach(s: string)
    requires 3 <= |s| && IsSpace(s[0]) && !IsSpace(s[1]) && !IsSpace(s[|s| - 2]) && IsSpace(s[|s| - 1])
    ensures Strip(s) == s[1..|s| - 1]
  {
    assert SpaceRunEnd(s, 1) == 1;
    var t := StripLeft(s);
    assert t == s[1..];
    assert t[..|t| - 1] == s[1..|s| - 1];
    StripRightId(s[1..|s| - 1]);
  }

  /** A key followed by one blank strips to the key. */
  lemma StripTrailingBlank(key: string)
    requires 2 <= |key| && !IsSpace(key[0]) && !IsSpace(key[|key| - 2]) && IsSpace(key[|key| - 1])
    ensures Strip(key) == key[..|key| - 1]
  {
    StripLeftId(key);
    var k := key[..|key| - 1];
    assert k[|k| - 1] == key[|key| - 2];
    StripRightId(k);
    assert StripRight(key) == StripRight(k);
  }

  lemma ExampleLineStrip()
    ensures Strip(" TOKEN = \"a=b\" ") == "TOKEN = \"a=b\""
  {
    var line := " TOKEN = \"a=b\" ";
    StripOneEach(line);
    assert line[1..|line| - 1] == "TOKEN = \"a=b\"";
  }

  lemma ExampleLineSplit()
    ensures var line := "TOKEN = \"a=b\"";
            && !StartsWith(line, "#") && IndexOf(line, '=') == Some(6)
            && Strip(line[..6]) == "TOKEN" && line[7..] == " \"a=b\""
  {
    var line := "TOKEN = \"a=b\"";
    assert line[..1] == "T";
    assert '=' !in line[..6] && line[6] == '=';
    var key := line[..6];
    assert key == "TOKEN ";
    StripTrailingBlank(key);
    assert key[..5] == "TOKEN";
    assert line[7..] == " \"a=b\"";
  }

  /** A value after one leading blank strips to the value. */
  lemma StripLeadingBlank(v: string)
    requires 2 <= |v| && IsSpace(v[0]) && !IsSpace(v[1]) && !IsSpace(v[|v| - 1])
    ensures Strip(v) == v[1..]
  {
    assert SpaceRunEnd(v, 1) == 1;
    assert StripLeft(v) == v[1..];
    StripRightId(v[1..]);
  }

  /** A value with one quote character at each end loses both. */
  lemma StripQuotes(q: string, c: char)
    requires 3 <= |q| && q[0] == c && q[1] != c && q[|q| - 2] != c && q[|q| - 1] == c
    ensures StripChar(q, c) == q[1..|q| - 1]
  {
    assert CharRunEnd(q, c, 1) == 1;
    var r := StripCharLeft(q, c);
    assert r == q[1..];
    assert r[..|r| - 1] == q[1..|q| - 1];
    assert StripCharRight(r, c) == StripCharRight(q[1..|q| - 1], c);
    StripCharId(q[1..|q| - 1], c);
  }

  /** A blank, then a word in double quotes, cleans to the word. */
  lemma CleanQuoted(v: string)
    requires 4 <= |v| && IsSpace(v[0]) && v[1] == '"' && v[|v| - 1] == '"'
    requires var w := v[2..|v| - 1];
             && !IsSpace(w[0]) && !IsSpace(w[|w| - 1])
             && w[0] != '"' && w[|w| - 1] != '"' && w[0] != '\'' && w[|w| - 1] != '\''
    ensures CleanValue(v) == v[2..|v| - 1]
  {
    StripLeadingBlank(v);
    var q := v[1..];
    assert q[1..|q| - 1] == v[2..|v| - 1];
    StripQuotes(q, '"');
    StripCharId(v[2..|v| - 1], '\'');
  }

  lemma ExampleLineValue(v: string)
    requires v == " \"a=b\""
    ensures CleanValue(v) == "a=b"
  {
    assert v[2..|v| - 1] == "a=b";
    CleanQuoted(v);
  }

  /** One concrete line: surrounding blanks and quotes go, an inner '=' stays. */
  lemma ParseLineExample()
    ensures ParseLine(" TOKEN = \"a=b\" ") == Some(Entry("TOKEN", "a=b"))
  {
    ExampleLineStrip();
    ExampleLineSplit();
    ExampleLineValue(" \"a=b\"");
    ParseLineAssigns(" TOKEN = \"a=b\" ", 6);
  }

  /** Comments, lines without '=' and lines with a blank key assign nothing. */
  lemma ParseLineSkips()
    ensures ParseLine("# TOKEN=x") == None
    ensures ParseLine("TOKEN") == None
    ensures ParseLine(" =x") == None
  {
    SkipsComment();
    SkipsNoAssignment();
    SkipsBlankKey();
  }

  lemma SkipsComment()
    ensures ParseLine("# TOKEN=x") == None
  {
    var line := "# TOKEN=x";
    StripId(line);
    assert line[..1] == "#";
  }

  lemma SkipsNoAssignment()
    ensures ParseLine("TOKEN") == None
  {
    var line := "TOKEN";
    StripId(line);
    assert '=' !in line;
  }

  lemma SkipsBlankKey()
    ensures ParseLine(" =x") == None
  {
    var line := " =x";
    assert SpaceRunEnd(line, 1) == 1;
    assert StripLeft(line) == "=x";
    StripRightId("=x");
    var t := "=x";
    assert t[..1] != "#";
    assert IndexOf(t, '=') == Some(0);
    assert t[..0] == "";
    assert Strip("") == "";
  }

  /** The flag is read case-insensitively and with surrounding blanks ignored. */
  lemma EnabledExamples()
    ensures Enabled(Some(" Yes ")) && Enabled(Some("1")) && Enabled(Some("TRUE"))
  {
    EnabledYes();
    EnabledOne();
    EnabledTrue();
  }

  lemma EnabledYes()
    ensures Enabled(Some(" Yes "))
  {
    YesWord();
  }

  lemma YesWord()
    ensures Lower(Strip(" Yes ")) == "yes"
  {
    assert StripLeft(" Yes ") == "Yes ";
    assert StripRight("Yes ") == "Yes";
    var u := Lower("Yes");
    assert u[0] == 'y' && u[1] == 'e' && u[2] == 's';
  }

  lemma EnabledOne()
    ensures Enabled(Some("1"))
  {
    OneWord();
  }

  lemma OneWord()
    ensures Lower(Strip("1")) == "1"
  {
    StripId("1");
    var u := Lower("1");
    assert u[0] == '1';
  }

  lemma EnabledTrue()
    ensures Enabled(Some("TRUE"))
  {
    TrueWord();
  }

  lemma TrueWord()
    ensures Lower(Strip("TRUE")) == "true"
  {
    StripId("TRUE");
    var u := Lower("TRUE");
    assert u[0] == 't' && u[1] == 'r' && u[2] == 'u' && u[3] == 'e';
  }

  /** An unset or empty flag leaves loading off. */
  lemma DisabledWhenUnset()
    ensures !Enabled(None) && !Enabled(Some(""))
  {
    assert Strip("") == "" && Lower("") == "";
    assert "" !in EnabledFlags;
  }

  /** So does any other word, such as "0" or "on". */
  lemma DisabledOtherFlags()
    ensures !Enabled(Some("0")) && !Enabled(Some("on"))
  {
    DisabledZero();
    DisabledOn();
  }

  lemma DisabledZero()
    ensures !Enabled(Some("0"))
  {
    ZeroWord();
    ZeroNotFlag();
  }

  lemma ZeroWord()
    ensures Lower(Strip("0")) == "0"
  {
    StripId("0");
    var u := Lower("0");
    assert u[0] == '0';
  }

  lemma ZeroNotFlag()
    ensures "0" !in EnabledFlags
  {
    assert "0"[0] != "1"[0];
  }

  lemma DisabledOn()
    ensures !Enabled(Some("on"))
  {
    OnWord();
    assert "on" !in EnabledFlags;
  }

  lemma OnWord()
    ensures Lower(Strip("on")) == "on"
  {
    StripId("on");
    var u := Lower("on");
    assert u[0] == 'o' && u[1] == 'n';
  }

  /** The process environment (os.environ). */
  class Environment {
    var vars: map<string, string>

    constructor (initial: map<string, string>)
      ensures vars == initial
    {
      vars := initial;
    }

    /** load_optional_dotenv: when LOAD_DOTENV is one of the enabled flags and the
        file exists, the file's assignments are applied as Merge states; otherwise
        nothing changes. */
    method LoadOptionalDotenv(file: Option<seq<string>>)
      modifies this
      ensures Enabled(Getenv(old(vars), "LOAD_DOTENV")) && file.Some? ==> vars == Merge(old(vars), ParseAll(file.value))
      ensures !(Enabled(Getenv(old(vars), "LOAD_DOTENV")) && file.Some?) ==> vars == old(vars)
    {
      var flag := Lower(Strip(OrEmpty(Getenv(vars, "LOAD_DOTENV"))));
      if flag !in EnabledFlags {
        return;
      }
      match file {
        case None =>
        case Some(lines) => ApplyLines(lines);
      }
    }

    /** The loop of load_optional_dotenv over the lines of the file. */
    method ApplyLines(lines: seq<string>)
      modifies this
      ensures vars == Merge(old(vars), ParseAll(lines))
    {
      ghost var entries := ParseAll(lines);
      var i := 0;
      while i < |lines|
        invariant 0 <= i <= |lines|
        invariant vars == Merge(old(vars), entries[..i])
      {
        MergePrefix(old(vars), entries, i);
        var entry := ParseLine(lines[i]);
        assert entry == entries[i];
        match entry {
          case Some(e) =>
            if e.key !in vars {
              vars := vars[e.key := e.value];
            }
          case None =>
        }
        i := i + 1;
      }
      assert entries[..i] == entries;
    }
  }
}
