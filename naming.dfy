/** The naming helpers of the Python code generator (lang/py/generate.py):
    `camel_case`, built from Python's `str.split("_")`, `str.title()` and
    `"".join(...)` on ASCII text, and the two dispatches on a flatbuffers
    type tag that pick reader/writer method names. */
module Naming {

  predicate IsUpper(c: char) { 'A' <= c <= 'Z' }
  predicate IsLower(c: char) { 'a' <= c <= 'z' }

  /** The cased characters of ASCII: its letters. */
  predicate IsLetter(c: char) { IsUpper(c) || IsLower(c) }

  function ToUpper(c: char): (u: char)
    ensures IsLetter(c) <==> IsLetter(u)
    ensures !IsLetter(c) ==> u == c
  {
    if IsLower(c) then (c as int - 32) as char else c
  }

  function ToLower(c: char): (l: char)
    ensures IsLetter(c) <==> IsLetter(l)
    ensures !IsLetter(c) ==> l == c
  {
    if IsUpper(c) then (c as int + 32) as char else c
  }

  /** `str.title()` from a position whose preceding character was (or was
      not) a letter: a letter after a letter is lowered, any other letter is
      raised, everything else is kept. */
  function TitleFrom(s: string, afterLetter: bool): (r: string)
    ensures |r| == |s|
  {
    if s == [] then []
    else
      var c := s[0];
      [if IsLetter(c) then (if afterLetter then ToLower(c) else ToUpper(c)) else c]
        + TitleFrom(s[1..], IsLetter(c))
  }

  /** The title-cased form of `s[i]`: the first letter of each run of
      letters is upper case, the other letters of the run lower case, and
      every other character is unchanged. */
  function TitleChar(s: string, i: nat): char
    requires i < |s|
  {
    if IsLetter(s[i]) then (if i > 0 && IsLetter(s[i - 1]) then ToLower(s[i]) else ToUpper(s[i]))
    else s[i]
  }

  /** `str.title()`, character by character. */
  function Title(s: string): (r: string)
    ensures |r| == |s|
    ensures forall i :: 0 <= i < |s| ==> r[i] == TitleChar(s, i)
  {
    TitleFromAll(s);
    TitleFrom(s, false)
  }

  lemma TitleFromAll(s: string)
    ensures forall i :: 0 <= i < |s| ==> TitleFrom(s, false)[i] == TitleChar(s, i)
  {
    forall i | 0 <= i < |s| ensures TitleFrom(s, false)[i] == TitleChar(s, i) {
      TitleFromAt(s, false, i);
    }
  }

  lemma {:induction false} TitleFromAt(s: string, afterLetter: bool, i: nat)
    requires i < |s|
    ensures TitleFrom(s, afterLetter)[i] ==
      if IsLetter(s[i]) then
        (if (if i == 0 then afterLetter else IsLetter(s[i - 1])) then ToLower(s[i]) else ToUpper(s[i]))
      else s[i]
    decreases i
  {
    if i > 0 {
      TitleFromAt(s[1..], IsLetter(s[0]), i - 1);
    }
  }

  /** `str.split("_")`: the pieces between underscores, empty ones included;
      never an empty list. */
  function Split(s: string): (pieces: seq<string>)
    ensures |pieces| >= 1
    ensures forall i :: 0 <= i < |pieces| ==> '_' !in pieces[i]
  {
    if s == [] then [[]]
    else
      var rest := Split(s[1..]);
      if s[0] == '_' then [[]] + rest else [[s[0]] + rest[0]] + rest[1..]
  }

  /** `"_".join(pieces)`. */
  function Join(pieces: seq<string>): string
    requires |pieces| >= 1
  {
    if |pieces| == 1 then pieces[0] else pieces[0] + "_" + Join(pieces[1..])
  }

  /** Splitting and joining again gives the text back. */
  lemma {:induction false} JoinSplit(s: string)
    ensures Join(Split(s)) == s
  {
    if s != [] {
      JoinSplit(s[1..]);
      var rest := Split(s[1..]);
      if s[0] == '_' {
        assert Split(s) == [[]] + rest;
        assert ([[]] + rest)[1..] == rest;
      } else if |rest| == 1 {
        assert Split(s) == [[s[0]] + rest[0]];
      } else {
        assert Split(s) == [[s[0]] + rest[0]] + rest[1..];
        assert ([[s[0]] + rest[0]] + rest[1..])[1..] == rest[1..];
        assert Join(rest) == rest[0] + "_" + Join(rest[1..]);
      }
    }
  }

  /** Joining pieces that hold no underscore and splitting again gives the
      pieces back. */
  lemma {:induction false} SplitJoin(pieces: seq<string>)
    requires |pieces| >= 1
    requires forall i :: 0 <= i < |pieces| ==> '_' !in pieces[i]
    ensures Split(Join(pieces)) == pieces
    decreases |pieces|, |pieces[0]|
  {
    if |pieces| == 1 {
      SplitPiece(pieces[0]);
    } else {
      var tail := pieces[1..];
      SplitJoin(tail);
      SplitAppend(pieces[0], Join(tail));
      assert Join(pieces) == pieces[0] + "_" + Join(tail);
      SplitPiece(pieces[0]);
      assert pieces == [pieces[0]] + tail;
    }
  }

  /** Text without an underscore is a single piece. */
  lemma {:induction false} SplitPiece(s: string)
    requires '_' !in s
    ensures Split(s) == [s]
  {
    if s != [] {
      assert '_' !in s[1..] by {
        forall k | 0 <= k < |s[1..]| ensures s[1..][k] != '_' { assert s[1..][k] == s[k + 1]; }
      }
      SplitPiece(s[1..]);
      assert [s[0]] + s[1..] == s;
    }
  }

  /** Splitting distributes over an underscore. */
  lemma {:induction false} SplitAppend(a: string, b: string)
    ensures Split(a + "_" + b) == Split(a) + Split(b)
  {
    if a == [] {
      assert a + "_" + b == "_" + b;
      assert ("_" + b)[1..] == b;
    } else {
      var s := a + "_" + b;
      assert s[1..] == a[1..] + "_" + b && s[0] == a[0];
      SplitAppend(a[1..], b);
      var r := Split(s[1..]);
      var left := Split(a[1..]);
      assert r == left + Split(b);
      if a[0] != '_' {
        assert r[0] == left[0] && r[1..] == left[1..] + Split(b);
        assert Split(s) == [[a[0]] + r[0]] + r[1..];
        assert Split(a) == [[a[0]] + left[0]] + left[1..];
      } else {
        assert Split(s) == [[]] + r;
        assert Split(a) == [[]] + left;
      }
    }
  }

  /** The pieces, each title-cased. */
  function TitleAll(pieces: seq<string>): (ts: seq<string>)
    ensures |ts| == |pieces|
  {
    if pieces == [] then [] else [Title(pieces[0])] + TitleAll(pieces[1..])
  }

  /** `"".join(pieces)`. */
  function Concat(pieces: seq<string>): string {
    if pieces == [] then [] else pieces[0] + Concat(pieces[1..])
  }

  /** `camel_case(text)`: split on underscores, title-case every piece, and
      join the pieces with nothing between them. The underscores are dropped
      and every other character is kept. */
  function CamelCase(text: string): (r: string)
    ensures '_' !in r
    ensures |r| == |text| - CountUnderscores(text)
  {
    ConcatTitlesNoUnderscore(Split(text));
    ConcatTitlesLength(Split(text));
    SplitDropsUnderscores(text);
    Concat(TitleAll(Split(text)))
  }

  function CountUnderscores(s: string): nat {
    if s == [] then 0 else (if s[0] == '_' then 1 else 0) + CountUnderscores(s[1..])
  }

  lemma {:induction false} TitleAllAppend(p: seq<string>, q: seq<string>)
    ensures TitleAll(p + q) == TitleAll(p) + TitleAll(q)
  {
    if p != [] {
      TitleAllAppend(p[1..], q);
      assert (p + q)[1..] == p[1..] + q;
    } else {
      assert p + q == q;
    }
  }

  lemma {:induction false} ConcatAppend(p: seq<string>, q: seq<string>)
    ensures Concat(p + q) == Concat(p) + Concat(q)
  {
    if p != [] {
      ConcatAppend(p[1..], q);
      assert (p + q)[1..] == p[1..] + q;
    } else {
      assert p + q == q;
    }
  }

  /** camel_case of two texts joined by an underscore is the camel_case of
      each, one after the other. */
  lemma CamelCaseDistributes(a: string, b: string)
    ensures CamelCase(a + "_" + b) == CamelCase(a) + CamelCase(b)
  {
    SplitAppend(a, b);
    TitleAllAppend(Split(a), Split(b));
    ConcatAppend(TitleAll(Split(a)), TitleAll(Split(b)));
  }

  /** camel_case of text without an underscore is its title case. */
  lemma CamelCaseOfPiece(s: string)
    requires '_' !in s
    ensures CamelCase(s) == Title(s)
  {
    SplitPiece(s);
    assert TitleAll([s]) == [Title(s)];
    assert Concat([Title(s)]) == Title(s) + [];
  }

  lemma CamelCaseEmpty()
    ensures CamelCase("") == ""
  {
  }

  /** Title case keeps every underscore where it is and adds none. */
  lemma TitleKeepsUnderscores(s: string)
    ensures '_' in Title(s) <==> '_' in s
  {
    var t := Title(s);
    forall i | 0 <= i < |s| ensures t[i] == '_' <==> s[i] == '_' {
      if IsLetter(s[i]) {
        assert IsLetter(t[i]);
      }
    }
  }

  lemma {:induction false} ConcatTitlesNoUnderscore(pieces: seq<string>)
    requires forall i :: 0 <= i < |pieces| ==> '_' !in pieces[i]
    ensures '_' !in Concat(TitleAll(pieces))
  {
    if pieces != [] {
      TitleKeepsUnderscores(pieces[0]);
      ConcatTitlesNoUnderscore(pieces[1..]);
      assert TitleAll(pieces) == [Title(pieces[0])] + TitleAll(pieces[1..]);
    }
  }

  lemma {:induction false} ConcatTitlesLength(pieces: seq<string>)
    ensures |Concat(TitleAll(pieces))| == |Concat(pieces)|
  {
    if pieces != [] {
      ConcatTitlesLength(pieces[1..]);
      assert TitleAll(pieces) == [Title(pieces[0])] + TitleAll(pieces[1..]);
    }
  }

  lemma {:induction false} SplitDropsUnderscores(s: string)
    ensures |Concat(Split(s))| == |s| - CountUnderscores(s)
  {
    if s != [] {
      SplitDropsUnderscores(s[1..]);
      var rest := Split(s[1..]);
      if s[0] == '_' {
        assert Concat([[]] + rest) == Concat(rest);
      } else {
        assert Concat([[s[0]] + rest[0]] + rest[1..]) == [s[0]] + rest[0] + Concat(rest[1..]);
        assert Concat(rest) == rest[0] + Concat(rest[1..]);
      }
    }
  }

  lemma TitleWords()
    ensures Title("uint8") == "Uint8" && Title("u") == "U" && Title("offset") == "Offset"
  {
    assert TitleFrom("8", true) == "8";
    assert TitleFrom("t8", true) == "t8";
    assert TitleFrom("nt8", true) == "nt8";
    assert TitleFrom("int8", true) == "int8";
    assert TitleFrom("t", true) == "t";
    assert TitleFrom("et", true) == "et";
    assert TitleFrom("set", true) == "set";
    assert TitleFrom("fset", true) == "fset";
    assert TitleFrom("ffset", true) == "ffset";
  }

  /** camel_case of two underscore-free words joined by an underscore is
      their title cases run together. */
  lemma CamelCaseOfPair(a: string, b: string, ta: string, tb: string)
    requires '_' !in a && '_' !in b && Title(a) == ta && Title(b) == tb
    ensures CamelCase(a + "_" + b) == ta + tb
  {
    CamelCaseDistributes(a, b);
    CamelCaseOfPiece(a);
    CamelCaseOfPiece(b);
  }

  /** The name the generator builds from `uint8`. */
  lemma CamelCaseUint8()
    ensures CamelCase("uint8") == "Uint8"
  {
    TitleWords();
    CamelCaseOfPiece("uint8");
  }

  /** The name the generator builds from `u_offset`. */
  lemma CamelCaseUOffset()
    ensures CamelCase("u_offset") == "UOffset"
  {
    TitleWords();
    CamelCaseOfPair("u", "offset", "U", "Offset");
    assert "u" + "_" + "offset" == "u_offset";
    assert "U" + "Offset" == "UOffset";
  }

  /** Flatbuffers type tags; the tags the dispatches test by name, and any
      other tag by its value. */
  datatype FbsType = STRING | UNION | ENUM | VECTOR | STRUCT | Other(tag: int)

  /** The generator's lookup tables, whose contents are not part of this
      model: the primitive tags, the C type name of a tag (`py_gen_type`),
      and the element type `parse_types` finds for a vector. */
  datatype TypeTables = TypeTables(primitive: set<FbsType>, pyCType: FbsType -> string,
                                   vectorElement: FbsType -> FbsType)

  const FLAGS_PREFIX: string := "flatbuffers.number_types."

  /** `py_gen_method`: the builder method for a tag. It never holds an
      underscore; for a tag that is not primitive it is `Struct` exactly for
      STRUCT and `UOffsetTRelative` otherwise. */
  function PyGenMethod(t: FbsType, tables: TypeTables): (m: string)
    ensures '_' !in m
    ensures t in tables.primitive ==> m == CamelCase(tables.pyCType(t))
    ensures t !in tables.primitive ==>
              (m == "Struct" <==> t == STRUCT) &&
              (t != STRUCT ==> m == "UOffsetTRelative")
  {
    if t in tables.primitive then CamelCase(tables.pyCType(t))
    else if t == STRUCT then "Struct"
    else "UOffsetTRelative"
  }

  /** `"flatbuffers.number_types.{}Flags".format(name)`: the name of a flags
      class, from which `name` can be read back. */
  function FlagsClass(name: string): (c: string)
    ensures |c| == |FLAGS_PREFIX| + |name| + 5
    ensures c[..|FLAGS_PREFIX|] == FLAGS_PREFIX && c[|c| - 5..] == "Flags"
    ensures c[|FLAGS_PREFIX|..|c| - 5] == name
  {
    var c := FLAGS_PREFIX + name + "Flags";
    assert c[..|FLAGS_PREFIX|] == FLAGS_PREFIX;
    assert c[|FLAGS_PREFIX|..|c| - 5] == name;
    c
  }

  /** `py_gen_getter`: the getter name for a tag and the arguments it takes.
      It is `String` with no argument exactly for STRING; every other tag gets
      `Get` and one argument naming a flags class of flatbuffers.number_types
      whose name holds no underscore (`Int8Flags` for UNION and ENUM). */
  function PyGenGetter(t: FbsType, tables: TypeTables): (g: (string, seq<string>))
    ensures (g.0 == "String" <==> t == STRING) && (t == STRING ==> g.1 == [])
    ensures t != STRING ==>
              g.0 == "Get" && |g.1| == 1 &&
              |g.1[0]| >= |FLAGS_PREFIX| + 5 &&
              g.1[0][..|FLAGS_PREFIX|] == FLAGS_PREFIX &&
              g.1[0][|g.1[0]| - 5..] == "Flags" &&
              '_' !in g.1[0][|FLAGS_PREFIX|..|g.1[0]| - 5]
    ensures t == UNION || t == ENUM ==> g.1 == [FLAGS_PREFIX + "Int8Flags"]
    ensures t != STRING && t != UNION && t != ENUM ==>
              g.1 == [FlagsClass(CamelCase(tables.pyCType(if t == VECTOR then tables.vectorElement(t) else t)))]
  {
    if t == STRING then ("String", [])
    else if t == UNION || t == ENUM then
      assert FLAGS_PREFIX + "Int8" + "Flags" == FLAGS_PREFIX + "Int8Flags";
      ("Get", [FlagsClass("Int8")])
    else if t == VECTOR then ("Get", [FlagsClass(CamelCase(tables.pyCType(tables.vectorElement(t))))])
    else ("Get", [FlagsClass(CamelCase(tables.pyCType(t)))])
  }
}
