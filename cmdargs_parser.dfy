/**
 * The command-line arguments parser of the tools: one pass over argv that
 * recognises `--input TYPE [NAME]` and `--output TYPE [NAME]`, remembers the
 * optional interface names, and answers lookups with defaults ("can" for an
 * interface type, "any" for an interface name).
 *
 * The pass is specified by `Scan`, a recursive function over the same state
 * the loop keeps (the position, the latched validity flag and the stored
 * values); the lemmas below state what that pass means.
 */
module CmdArgsParser {

  /** The parameters that can be looked up (`cmdargs_parser::values`). */
  datatype Value = InputInterfaceType | OutputInterfaceType | InputInterfaceName | OutputInterfaceName
  {
    predicate IsName()
    {
      InputInterfaceName? || OutputInterfaceName?
    }
  }

  /** The outcome of a pass: the validity flag and the stored values. */
  datatype Parsed = Parsed(valid: bool, values: map<Value, string>)

  predicate IsKeyword(s: string)
  {
    s == "--input" || s == "--output"
  }

  /** The value a keyword's optional interface name is stored under. */
  function NameKey(keyword: string): Value
    requires IsKeyword(keyword)
  {
    if keyword == "--input" then InputInterfaceName else OutputInterfaceName
  }

  /**
   * The pass from position `i` on. A keyword consumes itself and the two
   * tokens after it; a keyword in the last position clears the flag; the
   * third token, when present, is stored as the interface name.
   */
  function Scan(argv: seq<string>, i: nat, ok: bool, values: map<Value, string>): (r: Parsed)
    ensures values.Keys <= r.values.Keys
    decreases |argv| - i
  {
    if i >= |argv| then Parsed(ok, values)
    else if IsKeyword(argv[i]) then
      var ok' := if i + 1 >= |argv| then false else ok;
      var values' := if i + 1 < |argv| && i + 2 < |argv| then values[NameKey(argv[i]) := argv[i + 2]] else values;
      Scan(argv, i + 3, ok', values')
    else
      Scan(argv, i + 1, ok, values)
  }

  /**
   * The whole pass, from the first token (the program name) on. The arguments
   * are invalid exactly when the pass, stepping from the first token, lands on
   * the last token and that token is a keyword.
   */
  function Parse(argv: seq<string>): (r: Parsed)
    ensures !r.valid <==> |argv| > 0 && VisitsFrom(argv, 0, |argv| - 1) && IsKeyword(argv[|argv| - 1])
  {
    InvalidIff(argv, 0, map[]);
    Scan(argv, 0, true, map[])
  }

  /**
   * Whether the pass started at position `i` lands on position `j`: it steps
   * over a keyword together with the two tokens after it, and over any other
   * token alone.
   */
  predicate VisitsFrom(argv: seq<string>, i: nat, j: nat)
    decreases |argv| - i
  {
    i == j || (i < j && i < |argv| && VisitsFrom(argv, if IsKeyword(argv[i]) then i + 3 else i + 1, j))
  }

  /** `cmdargs_parser`: the validity flag and the map of explicitly given values. */
  class Parser {
    var valid: bool
    var values: map<Value, string>

    /** Parses `argv` (its length is `argc`). */
    constructor (argv: seq<string>)
      ensures valid == Parse(argv).valid
      ensures values == Parse(argv).values
    {
      valid := false;
      values := map[];
      new;
      var isOK := true;
      var i: nat := 0;
      while i < |argv|
        invariant Scan(argv, i, isOK, values) == Parse(argv)
        decreases |argv| - i
      {
        if argv[i] == "--input" {
          if i + 1 >= |argv| {
            isOK := false;
          } else if i + 2 < |argv| {
            values := values[InputInterfaceName := argv[i + 2]];
          }
          i := i + 2;
        } else if argv[i] == "--output" {
          if i + 1 >= |argv| {
            isOK := false;
          } else if i + 2 < |argv| {
            values := values[OutputInterfaceName := argv[i + 2]];
          }
          i := i + 2;
        }
        i := i + 1;
      }
      valid := isOK;
    }

    /** `get`: a stored value takes precedence; otherwise "any" for a name and "can" for a type. */
    function Get(p: Value): (r: string)
      reads this
      ensures p in values ==> r == values[p]
      ensures p !in values && p.IsName() ==> r == "any"
      ensures p !in values && !p.IsName() ==> r == "can"
    {
      if p in values then values[p]
      else match p
        case InputInterfaceName | OutputInterfaceName => "any"
        case _ => "can"
    }
  }

  // ------------------------------------------------------------------
  // What the pass means
  // ------------------------------------------------------------------

  /** Tokens that are not keywords are passed over without effect. */
  lemma {:induction false} ScanSkipsPlainTokens(argv: seq<string>, i: nat, j: nat, ok: bool, values: map<Value, string>)
    requires i <= j <= |argv|
    requires forall k :: i <= k < j ==> !IsKeyword(argv[k])
    ensures Scan(argv, i, ok, values) == Scan(argv, j, ok, values)
    decreases j - i
  {
    if i < j {
      ScanSkipsPlainTokens(argv, i + 1, j, ok, values);
    }
  }

  /** Without `--input` or `--output` the arguments are valid and nothing is stored. */
  lemma NoKeywordsGivesDefaults(argv: seq<string>)
    requires forall k :: 0 <= k < |argv| ==> !IsKeyword(argv[k])
    ensures Parse(argv) == Parsed(true, map[])
  {
    ScanSkipsPlainTokens(argv, 0, |argv|, true, map[]);
  }

  /** Once the flag is cleared, no later token sets it again. */
  lemma {:induction false} ScanLatchesInvalid(argv: seq<string>, i: nat, ok: bool, values: map<Value, string>)
    requires !ok
    ensures !Scan(argv, i, ok, values).valid
    decreases |argv| - i
  {
    if i < |argv| {
      if IsKeyword(argv[i]) {
        ScanLatchesInvalid(argv, i + 3, ok, if i + 2 < |argv| then values[NameKey(argv[i]) := argv[i + 2]] else values);
      } else {
        ScanLatchesInvalid(argv, i + 1, ok, values);
      }
    }
  }

  /** The only way to become invalid: a keyword is reached in the last position. */
  lemma {:induction false} ScanInvalidOnlyAtTrailingKeyword(argv: seq<string>, i: nat, values: map<Value, string>)
    requires !Scan(argv, i, true, values).valid
    ensures |argv| > 0 && IsKeyword(argv[|argv| - 1])
    decreases |argv| - i
  {
    if i < |argv| {
      if IsKeyword(argv[i]) {
        if i + 1 < |argv| {
          ScanInvalidOnlyAtTrailingKeyword(argv, i + 3, if i + 2 < |argv| then values[NameKey(argv[i]) := argv[i + 2]] else values);
        }
      } else {
        ScanInvalidOnlyAtTrailingKeyword(argv, i + 1, values);
      }
    }
  }

  /**
   * The pass from `i` ends invalid exactly when it lands on the last token and
   * that token is a keyword: a keyword anywhere else is followed by at least
   * its type token and leaves the flag alone.
   */
  lemma {:induction false} InvalidIff(argv: seq<string>, i: nat, values: map<Value, string>)
    ensures !Scan(argv, i, true, values).valid <==> |argv| > 0 && VisitsFrom(argv, i, |argv| - 1) && IsKeyword(argv[|argv| - 1])
    decreases |argv| - i
  {
    if i < |argv| {
      if IsKeyword(argv[i]) {
        if i + 1 >= |argv| {
          ScanLatchesInvalid(argv, i + 3, false, values);
        } else {
          InvalidIff(argv, i + 3, if i + 2 < |argv| then values[NameKey(argv[i]) := argv[i + 2]] else values);
        }
      } else {
        InvalidIff(argv, i + 1, values);
      }
    }
  }

  /** A keyword reached in the last position makes the arguments invalid. */
  lemma TrailingKeywordIsInvalid(prefix: seq<string>, keyword: string)
    requires forall k :: 0 <= k < |prefix| ==> !IsKeyword(prefix[k])
    requires IsKeyword(keyword)
    ensures Parse(prefix + [keyword]) == Parsed(false, map[])
  {
    var argv := prefix + [keyword];
    ScanSkipsPlainTokens(argv, 0, |prefix|, true, map[]);
  }

  /**
   * `KEYWORD TYPE NAME` stores NAME under the keyword's name key and keeps the
   * arguments valid; TYPE and NAME are consumed without being examined, so
   * either may itself read "--input" or "--output".
   */
  lemma KeywordStoresName(prefix: seq<string>, keyword: string, typ: string, name: string, suffix: seq<string>)
    requires forall k :: 0 <= k < |prefix| ==> !IsKeyword(prefix[k])
    requires forall k :: 0 <= k < |suffix| ==> !IsKeyword(suffix[k])
    requires IsKeyword(keyword)
    ensures Parse(prefix + [keyword, typ, name] + suffix) == Parsed(true, map[NameKey(keyword) := name])
  {
    var argv := prefix + [keyword, typ, name] + suffix;
    var n := |prefix|;
    ScanSkipsPlainTokens(argv, 0, n, true, map[]);
    assert argv[n] == keyword;
    ScanSkipsPlainTokens(argv, n + 3, |argv|, true, map[NameKey(keyword) := name]);
  }

  /** `KEYWORD TYPE` at the end is valid and stores nothing: the name keeps its default. */
  lemma KeywordWithoutName(prefix: seq<string>, keyword: string, typ: string)
    requires forall k :: 0 <= k < |prefix| ==> !IsKeyword(prefix[k])
    requires IsKeyword(keyword)
    ensures Parse(prefix + [keyword, typ]) == Parsed(true, map[])
  {
    var argv := prefix + [keyword, typ];
    ScanSkipsPlainTokens(argv, 0, |prefix|, true, map[]);
    assert argv[|prefix|] == keyword;
  }

  /**
   * Two keyword groups, with any plain tokens before, between and after them,
   * store both names and stay valid. When the keywords are the same, the
   * later name overwrites the earlier one.
   */
  lemma LaterKeywordOverwrites(prefix: seq<string>, kw1: string, typ1: string, name1: string,
                               middle: seq<string>, kw2: string, typ2: string, name2: string, suffix: seq<string>)
    requires forall k :: 0 <= k < |prefix| ==> !IsKeyword(prefix[k])
    requires forall k :: 0 <= k < |middle| ==> !IsKeyword(middle[k])
    requires forall k :: 0 <= k < |suffix| ==> !IsKeyword(suffix[k])
    requires IsKeyword(kw1) && IsKeyword(kw2)
    ensures Parse(prefix + [kw1, typ1, name1] + middle + [kw2, typ2, name2] + suffix)
         == Parsed(true, map[NameKey(kw1) := name1][NameKey(kw2) := name2])
    ensures kw1 == kw2 ==>
      (Parse(prefix + [kw1, typ1, name1] + middle + [kw2, typ2, name2] + suffix)
         == Parsed(true, map[NameKey(kw2) := name2]))
  {
    var argv := prefix + [kw1, typ1, name1] + middle + [kw2, typ2, name2] + suffix;
    var n := |prefix|;
    var m := n + 3 + |middle|;
    var stored := map[NameKey(kw1) := name1];
    ScanSkipsPlainTokens(argv, 0, n, true, map[]);
    assert argv[n] == kw1 && argv[n + 2] == name1;
    assert forall k :: n + 3 <= k < m ==> argv[k] == middle[k - n - 3];
    ScanSkipsPlainTokens(argv, n + 3, m, true, stored);
    assert argv[m] == kw2 && argv[m + 2] == name2;
    assert forall k :: m + 3 <= k < |argv| ==> argv[k] == suffix[k - m - 3];
    ScanSkipsPlainTokens(argv, m + 3, |argv|, true, stored[NameKey(kw2) := name2]);
    if kw1 == kw2 {
      assert stored[NameKey(kw2) := name2] == map[NameKey(kw2) := name2];
    }
  }

  /** The type token after a keyword is never stored: only name keys ever appear in the map. */
  lemma {:induction false} ScanStoresOnlyNames(argv: seq<string>, i: nat, ok: bool, values: map<Value, string>)
    requires forall p :: p in values ==> p.IsName()
    ensures forall p :: p in Scan(argv, i, ok, values).values ==> p.IsName()
    decreases |argv| - i
  {
    if i < |argv| {
      if IsKeyword(argv[i]) {
        var ok' := if i + 1 >= |argv| then false else ok;
        ScanStoresOnlyNames(argv, i + 3, ok', if i + 2 < |argv| then values[NameKey(argv[i]) := argv[i + 2]] else values);
      } else {
        ScanStoresOnlyNames(argv, i + 1, ok, values);
      }
    }
  }

  /** Hence `get` answers "can" for both interface types, whatever the arguments. */
  lemma TypeKeysAlwaysDefault(argv: seq<string>)
    ensures InputInterfaceType !in Parse(argv).values
    ensures OutputInterfaceType !in Parse(argv).values
  {
    ScanStoresOnlyNames(argv, 0, true, map[]);
  }

  /**
   * The expectations of the parser's unit tests, as results of the pass: the
   * flag, and the names stored (an absent key is looked up as its default).
   * The last clause shows that a trailing keyword clears the flag only when
   * the pass lands on it: here it is consumed as the type token of `--input`.
   */
  lemma ParserTestExpectations()
    ensures Parse(["cantool"]) == Parsed(true, map[])
    ensures Parse(["cantool", "--input", "can"]) == Parsed(true, map[])
    ensures Parse(["cantool", "--output", "can"]) == Parsed(true, map[])
    ensures !Parse(["cantool", "--input"]).valid
    ensures !Parse(["cantool", "--output"]).valid
    ensures Parse(["cantool", "--input", "can", "vcan0"]) == Parsed(true, map[InputInterfaceName := "vcan0"])
    ensures Parse(["cantool", "--input", "can", "can1"]) == Parsed(true, map[InputInterfaceName := "can1"])
    ensures Parse(["cantool", "--output", "can", "vcan0"]) == Parsed(true, map[OutputInterfaceName := "vcan0"])
    ensures Parse(["cantool", "--output", "can", "can1"]) == Parsed(true, map[OutputInterfaceName := "can1"])
    ensures Parse(["cantool", "--input", "--output"]) == Parsed(true, map[])
  {
  }

  /** The expectations of the parser's unit tests, derived from the contracts above. */
  method ParserScenarios()
  {
    var p := new Parser(["cantool"]);
    NoKeywordsGivesDefaults(["cantool"]);
    assert p.valid && p.Get(InputInterfaceType) == "can" && p.Get(InputInterfaceName) == "any";
    assert p.Get(OutputInterfaceType) == "can" && p.Get(OutputInterfaceName) == "any";

    p := new Parser(["cantool", "--input", "can"]);
    KeywordWithoutName(["cantool"], "--input", "can");
    assert p.valid && p.Get(InputInterfaceType) == "can" && p.Get(InputInterfaceName) == "any";

    p := new Parser(["cantool", "--input"]);
    TrailingKeywordIsInvalid(["cantool"], "--input");
    assert !p.valid;

    var argv := ["cantool", "--input", "can", "vcan0", "--output"];
    p := new Parser(argv);
    assert VisitsFrom(argv, 4, 4) && VisitsFrom(argv, 1, 4) && VisitsFrom(argv, 0, 4);
    assert !p.valid && p.Get(InputInterfaceName) == "vcan0";

    p := new Parser(["cantool", "--input", "can", "vcan0", "--output", "can", "vcan1"]);
    LaterKeywordOverwrites(["cantool"], "--input", "can", "vcan0", [], "--output", "can", "vcan1", []);
    assert ["cantool"] + ["--input", "can", "vcan0"] + [] + ["--output", "can", "vcan1"] + []
        == ["cantool", "--input", "can", "vcan0", "--output", "can", "vcan1"];
    assert p.valid && p.Get(InputInterfaceName) == "vcan0" && p.Get(OutputInterfaceName) == "vcan1";

    p := new Parser(["cantool", "--output", "can", "vcan0"]);
    KeywordStoresName(["cantool"], "--output", "can", "vcan0", []);
    assert p.valid && p.Get(OutputInterfaceType) == "can" && p.Get(OutputInterfaceName) == "vcan0";
  }
}
