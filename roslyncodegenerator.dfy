/**
 * RoslynCodeGenerator: assembles the source text handed to the script
 * compiler from the script's using-alias directives, the code generated for
 * its aliases, and its own lines, all joined with CRLF.
 */
module CodeGeneration {

  const NewLine: string := "\r\n"

  /** string.Join(separator, parts): the parts with the separator between
      each adjacent pair. */
  function Join(separator: string, parts: seq<string>): string
    decreases |parts|
  {
    if parts == [] then ""
    else if |parts| == 1 then parts[0]
    else parts[0] + separator + Join(separator, parts[1..])
  }

  /** Whether `s` contains the two characters CR LF next to each other. */
  predicate ContainsNewLine(s: string)
  {
    exists j :: 0 <= j < |s| - 1 && s[j] == '\r' && s[j + 1] == '\n'
  }

  /** The index of the first CR LF in `s`, or |s| when there is none. */
  function FirstNewLine(s: string): (i: nat)
    ensures i <= |s|
    ensures i < |s| ==> i + 1 < |s| && s[i] == '\r' && s[i + 1] == '\n'
    ensures forall j :: 0 <= j < i && j + 1 < |s| ==> !(s[j] == '\r' && s[j + 1] == '\n')
    decreases |s|
  {
    if |s| < 2 then |s|
    else if s[0] == '\r' && s[1] == '\n' then 0
    else 1 + FirstNewLine(s[1..])
  }

  /** Cuts `s` at every CR LF: the reference inverse of Join(NewLine, ·). */
  function Split(s: string): (r: seq<string>)
    ensures |r| > 0
    decreases |s|
  {
    var i := FirstNewLine(s);
    if i == |s| then [s] else [s[..i]] + Split(s[i + 2..])
  }

  /** Joining never loses a boundary: when no element contains CR LF, cutting
      the joined text at CR LF gives back exactly the elements, so the
      separators sit only between elements, none leading or trailing. */
  lemma {:induction false} SplitJoin(parts: seq<string>)
    requires parts != []
    requires forall k :: 0 <= k < |parts| ==> !ContainsNewLine(parts[k])
    ensures Split(Join(NewLine, parts)) == parts
    decreases |parts|
  {
    if |parts| == 1 {
      assert FirstNewLine(parts[0]) == |parts[0]|;
    } else {
      var head, tail := parts[0], parts[1..];
      assert !ContainsNewLine(head);
      assert forall k :: 0 <= k < |tail| ==> tail[k] == parts[k + 1];
      var rest := Join(NewLine, tail);
      SplitJoin(tail);
      var s := head + NewLine + rest;
      assert Join(NewLine, parts) == s;
      FirstNewLineAfter(head, rest);
      assert s[..|head|] == head;
      assert s[|head| + 2..] == rest;
      assert Split(s) == [head] + Split(rest);
      assert parts == [head] + tail;
    }
  }

  /** The first CR LF of `p + NewLine + rest` is the separator when `p` has none. */
  lemma FirstNewLineAfter(p: string, rest: string)
    requires !ContainsNewLine(p)
    ensures FirstNewLine(p + NewLine + rest) == |p|
  {
    var s := p + NewLine + rest;
    assert s[|p|] == '\r' && s[|p| + 1] == '\n';
  }

  /** Join distributes over concatenation of non-empty element lists. */
  lemma {:induction false} JoinAppend(separator: string, a: seq<string>, b: seq<string>)
    requires a != [] && b != []
    ensures Join(separator, a + b) == Join(separator, a) + separator + Join(separator, b)
    decreases |a|
  {
    if |a| == 1 {
      assert (a + b)[1..] == b;
    } else {
      assert (a + b)[1..] == a[1..] + b;
      JoinAppend(separator, a[1..], b);
    }
  }

  /** The three-argument form string.Join(separator, a, b, c). */
  lemma JoinThree(separator: string, a: string, b: string, c: string)
    ensures Join(separator, [a, b, c]) == a + separator + b + separator + c
  {
    assert [a, b, c][1..] == [b, c];
    assert [b, c][1..] == [c];
    assert Join(separator, [c]) == c;
    assert Join(separator, [b, c]) == b + separator + c;
  }

  /** Method and Property, plus Unknown for any other value of the enum. */
  datatype ScriptAliasType = Unknown | Method | Property

  /** The reflected method an alias stands for; only its identity matters. */
  datatype MethodInfo = MethodInfo(name: string)

  datatype ScriptAlias = ScriptAlias(aliasType: ScriptAliasType, target: MethodInfo)

  /** The parts of a processed script that code generation reads. */
  datatype Script = Script(usingAliasDirectives: seq<string>, aliases: seq<ScriptAlias>, lines: seq<string>)

  /** MethodAliasGenerator.Generate and PropertyAliasGenerator.Generate, whose
      code is not part of this model. */
  datatype AliasGenerators = AliasGenerators(methodAlias: MethodInfo -> string, propertyAlias: MethodInfo -> string)

  /** The code generated for one alias: method aliases through the method
      generator, every other type through the property generator. */
  function AliasChunk(alias: ScriptAlias, generators: AliasGenerators): string
  {
    if alias.aliasType == Method then generators.methodAlias(alias.target)
    else generators.propertyAlias(alias.target)
  }

  /** One generated chunk per alias, in alias order. */
  function AliasChunks(aliases: seq<ScriptAlias>, generators: AliasGenerators): (r: seq<string>)
    ensures |r| == |aliases|
    ensures forall i :: 0 <= i < |aliases| ==>
      r[i] == if aliases[i].aliasType == Method then generators.methodAlias(aliases[i].target)
              else generators.propertyAlias(aliases[i].target)
    decreases |aliases|
  {
    if aliases == [] then []
    else [AliasChunk(aliases[0], generators)] + AliasChunks(aliases[1..], generators)
  }

  /** A section's lines as they appear in the output: an empty section still
      contributes one empty line. */
  function SectionLines(section: seq<string>): (r: seq<string>)
    ensures r != []
  {
    if section == [] then [""] else section
  }

  /** The text Generate returns. */
  function GeneratedCode(script: Script, generators: AliasGenerators): string
  {
    Join(NewLine, [Join(NewLine, script.usingAliasDirectives),
                   Join(NewLine, AliasChunks(script.aliases, generators)),
                   Join(NewLine, script.lines)])
  }

  /** The output's lines are the directives, then one chunk per alias, then
      the script lines, each empty section standing for one empty line. */
  lemma GeneratedCodeLines(script: Script, generators: AliasGenerators)
    requires forall k :: 0 <= k < |script.usingAliasDirectives| ==> !ContainsNewLine(script.usingAliasDirectives[k])
    requires forall k :: 0 <= k < |script.aliases| ==> !ContainsNewLine(AliasChunk(script.aliases[k], generators))
    requires forall k :: 0 <= k < |script.lines| ==> !ContainsNewLine(script.lines[k])
    ensures Split(GeneratedCode(script, generators))
         == SectionLines(script.usingAliasDirectives)
          + SectionLines(AliasChunks(script.aliases, generators))
          + SectionLines(script.lines)
  {
    var u := SectionLines(script.usingAliasDirectives);
    var a := SectionLines(AliasChunks(script.aliases, generators));
    var l := SectionLines(script.lines);
    assert Join(NewLine, u) == Join(NewLine, script.usingAliasDirectives);
    assert Join(NewLine, a) == Join(NewLine, AliasChunks(script.aliases, generators));
    assert Join(NewLine, l) == Join(NewLine, script.lines);
    JoinAppend(NewLine, u, a);
    JoinAppend(NewLine, u + a, l);
    JoinThree(NewLine, Join(NewLine, u), Join(NewLine, a), Join(NewLine, l));
    assert GeneratedCode(script, generators) == Join(NewLine, u + a + l);
    var all := u + a + l;
    forall k | 0 <= k < |all| ensures !ContainsNewLine(all[k]) {
      if k < |u| {
        assert all[k] == u[k];
      } else if k < |u| + |a| {
        assert all[k] == a[k - |u|];
      } else {
        assert all[k] == l[k - |u| - |a|];
      }
    }
    SplitJoin(all);
  }

  /** The foreach over the aliases, collecting each generated chunk. */
  method GetAliasCode(script: Script, generators: AliasGenerators) returns (code: string)
    ensures code == Join(NewLine, AliasChunks(script.aliases, generators))
  {
    var result: seq<string> := [];
    for i := 0 to |script.aliases|
      invariant |result| == i
      invariant forall j :: 0 <= j < i ==> result[j] == AliasChunk(script.aliases[j], generators)
    {
      var alias := script.aliases[i];
      if alias.aliasType == Method {
        result := result + [generators.methodAlias(alias.target)];
      } else {
        result := result + [generators.propertyAlias(alias.target)];
      }
    }
    assert result == AliasChunks(script.aliases, generators);
    code := Join(NewLine, result);
  }

  method Generate(script: Script, generators: AliasGenerators) returns (code: string)
    ensures code == GeneratedCode(script, generators)
    ensures var usings := Join(NewLine, script.usingAliasDirectives);
      var aliases := Join(NewLine, AliasChunks(script.aliases, generators));
      var lines := Join(NewLine, script.lines);
      code == usings + NewLine + aliases + NewLine + lines &&
      code[..|usings|] == usings &&
      code[|code| - |lines|..] == lines
  {
    var usingDirectives := Join(NewLine, script.usingAliasDirectives);
    var aliases := GetAliasCode(script, generators);
    var lines := Join(NewLine, script.lines);
    code := Join(NewLine, [usingDirectives, aliases, lines]);
    JoinThree(NewLine, usingDirectives, aliases, lines);
  }
}
