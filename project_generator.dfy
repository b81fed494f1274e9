/**
 * The project generator (`ProjectGenerator`): asks a language model for the
 * screens of a project and for the code of an agent, cleans the replies of
 * Markdown fences, and writes a placeholder React component per screen. The
 * model's reply is a parameter (`None` when the call raised), and so is the
 * JSON reader applied to the cleaned screen list (`None` when it raised).
 */
module ProjectGenerator {
  import opened Wrappers
  import opened Strings
  import opened Models

  const Fence: string := "```"
  const JsonFence: string := "```json"
  const PythonFence: string := "```python"

  /**
   * The cleanup both methods apply to a reply: strip it, drop a leading
   * language fence, then a leading bare fence, then a trailing fence.
   */
  function Unfence(reply: string, langFence: string): string {
    var c0 := PyStrip(reply);
    var c1 := if StartsWith(c0, langFence) then c0[|langFence|..] else c0;
    var c2 := if StartsWith(c1, Fence) then c1[|Fence|..] else c1;
    if EndsWith(c2, Fence) then c2[..|c2| - |Fence|] else c2
  }

  // ---------------------------------------------------------------------------
  // analyze_requirements

  /** One suggested screen, as the reply's JSON objects describe it. */
  datatype Suggestion = Suggestion(name: string, description: string)

  const FallbackScreens: seq<Suggestion> := [Suggestion("Dashboard", "Main overview of the application.")]

  /** `analyze_requirements`: the parsed screen list, or the single "Dashboard" screen on any failure. */
  function AnalyzeRequirements(reply: Option<string>, parse: string -> Option<seq<Suggestion>>): seq<Suggestion> {
    match reply
    case None => FallbackScreens
    case Some(r) =>
      match parse(Unfence(r, JsonFence))
      case None => FallbackScreens
      case Some(screens) => screens
  }

  // ---------------------------------------------------------------------------
  // generate_code

  /** The component identifier: the screen name without its spaces. */
  function Identifier(name: string): string { RemoveChar(name, ' ') }

  // The fixed text of the component, between the places the screen fills in
  const ImportReact: string := "import React from 'react';\n\nconst "
  const OpenBody: string := " = () => {\n    return (\n        <div className=\"p-6\">\n            <h1 className=\"text-2xl font-bold mb-4\">"
  const AfterTitle: string := "</h1>\n            <p className=\"text-gray-600 mb-6\">"
  const AfterDescription: string :=
    "</p>\n            <div className=\"bg-white p-6 rounded-lg shadow border border-gray-200\">\n                <p>Content for "
  const CloseBody: string := " goes here.</p>\n            </div>\n        </div>\n    );\n};\n\nexport default "

  /** The placeholder component written for one screen: a declaration, the markup, an export. */
  function Component(screen: ProjectScreen): string {
    var ident := Identifier(screen.name);
    Declaration(ident) + (Markup(screen) + Export(ident))
  }

  function Declaration(ident: string): string { ImportReact + ident + OpenBody }

  function Markup(screen: ProjectScreen): string {
    screen.name + AfterTitle + screen.description + AfterDescription + screen.name
  }

  function Export(ident: string): string { CloseBody + ident + ";\n" }

  /** The dictionary `generate_code` returns: screen name to component, a later screen overwriting an earlier one. */
  function CodeMap(screens: seq<ProjectScreen>): map<string, string>
    decreases |screens|
  {
    if screens == [] then map[]
    else
      var last := screens[|screens| - 1];
      CodeMap(screens[..|screens| - 1])[last.name := Component(last)]
  }

  /** `generate_code`: fills the dictionary one screen at a time. */
  method GenerateCode(screens: seq<ProjectScreen>) returns (generated: map<string, string>)
    ensures generated == CodeMap(screens)
  {
    generated := map[];
    var i := 0;
    while i < |screens|
      invariant 0 <= i <= |screens|
      invariant generated == CodeMap(screens[..i])
    {
      assert screens[..i + 1][..i] == screens[..i];
      var screen := screens[i];
      generated := generated[screen.name := Component(screen)];
      i := i + 1;
    }
    assert screens[..i] == screens;
  }

  // ---------------------------------------------------------------------------
  // generate_agent_code

  const ImportLine: string := "from agents.base import BaseAgent"

  /** The class name asked for: the agent name without spaces, then "Agent". */
  function ClassName(name: string): string { RemoveChar(name, ' ') + "Agent" }

  /** Adds the import line in front when the code does not already contain it. */
  function EnsureImport(code: string): string {
    if Contains(code, ImportLine) then code else ImportLine + "\n" + code
  }

  /** The inheritance the model tends to write, and what it is rewritten to. */
  const QualifiedBase: string := "(agents.base.BaseAgent)"
  const BareBase: string := "(BaseAgent)"

  /** The cleanup of a reply: fences, the fully qualified base class, then the import. */
  function CleanAgentCode(reply: string): string {
    EnsureImport(Replace(Unfence(reply, PythonFence), QualifiedBase, BareBase))
  }

  const ClassLineEnd: string := "(BaseAgent):"
  const RunHead: string := "\n    def run(self, message: str) -> str:\n        return f\"Hello, I am "
  const RunTail: string := ". You said: {message}\"\n"

  /** The class declaration line of the fallback template. */
  function ClassLine(name: string): string { "class " + ClassName(name) + ClassLineEnd }

  /** The template returned when the model call fails. */
  function FallbackAgentCode(name: string): string {
    ImportLine + ("\n\n" + (ClassLine(name) + (RunHead + name + RunTail)))
  }

  /** `generate_agent_code`. */
  function AgentCode(name: string, reply: Option<string>): string {
    match reply
    case None => FallbackAgentCode(name)
    case Some(r) => CleanAgentCode(r)
  }

  // ---------------------------------------------------------------------------
  // Properties

  /** A body wrapped in a language fence and a closing fence comes back unchanged. */
  lemma UnfenceFenced(body: string, langFence: string)
    requires langFence == JsonFence || langFence == PythonFence
    requires body == [] || body[0] != '`'
    ensures Unfence(langFence + body + Fence, langFence) == body
  {
    var s := langFence + body + Fence;
    assert s[0] == '`' && s[|s| - 1] == '`';
    assert PyStrip(s) == s;
    assert StartsWith(s, langFence) by { assert s[..|langFence|] == langFence; }
    assert s[|langFence|..] == body + Fence;
    if body == [] {
      assert (body + Fence)[|Fence|..] == [];
    } else {
      assert !StartsWith(body + Fence, Fence);
      assert EndsWith(body + Fence, Fence) by { assert (body + Fence)[|body|..] == Fence; }
      assert (body + Fence)[..|body|] == body;
    }
  }

  /** A reply with no fence at either end is only stripped. */
  lemma UnfencePlain(reply: string, langFence: string)
    requires StartsWith(langFence, Fence)
    requires var c := PyStrip(reply); !StartsWith(c, Fence) && !EndsWith(c, Fence)
    ensures Unfence(reply, langFence) == PyStrip(reply)
  {
  }

  /** Any failure, of the call or of the JSON reading, gives exactly the "Dashboard" screen. */
  lemma AnalyzeFallback(reply: Option<string>, parse: string -> Option<seq<Suggestion>>)
    requires reply.None? || parse(Unfence(reply.value, JsonFence)).None?
    ensures AnalyzeRequirements(reply, parse) == [Suggestion("Dashboard", "Main overview of the application.")]
  {
  }

  lemma {:induction false} RemoveCharKeeps(s: string, c: char)
    ensures forall k :: 0 <= k < |RemoveChar(s, c)| ==> RemoveChar(s, c)[k] in s
    ensures |RemoveChar(s, c)| <= |s|
    ensures c !in s ==> RemoveChar(s, c) == s
    decreases |s|
  {
    if s != [] {
      RemoveCharKeeps(s[1..], c);
    }
  }

  /** The identifier has no spaces; a name without spaces is its own identifier. */
  lemma IdentifierShape(name: string)
    ensures ' ' !in Identifier(name)
    ensures ' ' !in name ==> Identifier(name) == name
  {
    RemoveCharKeeps(name, ' ');
  }

  /** The component first declares the constant named by the identifier, and finally exports it. */
  lemma ComponentNames(screen: ProjectScreen)
    ensures StartsWith(Component(screen), Declaration(Identifier(screen.name)))
    ensures EndsWith(Component(screen), Export(Identifier(screen.name)))
  {
    var ident := Identifier(screen.name);
    StartsWithAppend(Declaration(ident), Markup(screen) + Export(ident));
    EndsWithAppend(Markup(screen), Export(ident));
    EndsWithAppend(Declaration(ident), Markup(screen) + Export(ident));
  }

  /** The dictionary has exactly one key per distinct screen name. */
  lemma {:induction false} CodeMapKeys(screens: seq<ProjectScreen>)
    ensures CodeMap(screens).Keys == set i | 0 <= i < |screens| :: screens[i].name
    decreases |screens|
  {
    if screens != [] {
      var init := screens[..|screens| - 1];
      CodeMapKeys(init);
      assert forall i :: 0 <= i < |init| ==> init[i] == screens[i];
    }
  }

  /** Each name maps to the component of the last screen carrying it. */
  lemma {:induction false} CodeMapLastWins(screens: seq<ProjectScreen>, i: nat)
    requires i < |screens|
    requires forall j :: i < j < |screens| ==> screens[j].name != screens[i].name
    ensures screens[i].name in CodeMap(screens)
    ensures CodeMap(screens)[screens[i].name] == Component(screens[i])
    decreases |screens|
  {
    var init := screens[..|screens| - 1];
    if i < |screens| - 1 {
      assert init[i] == screens[i];
      CodeMapLastWins(init, i);
    }
  }

  /** The class name has no spaces and ends with "Agent". */
  lemma ClassNameShape(name: string)
    ensures ' ' !in ClassName(name)
    ensures EndsWith(ClassName(name), "Agent")
  {
    RemoveCharKeeps(name, ' ');
    var r := RemoveChar(name, ' ');
    assert (r + "Agent")[|r|..] == "Agent";
  }

  /** The import is added exactly when it is missing, and a second pass changes nothing. */
  lemma EnsureImportProperties(code: string)
    ensures Contains(EnsureImport(code), ImportLine)
    ensures EnsureImport(code) == code <==> Contains(code, ImportLine)
    ensures EnsureImport(EnsureImport(code)) == EnsureImport(code)
  {
    if !Contains(code, ImportLine) {
      StartsWithAppend(ImportLine, "\n" + code);
      assert ImportLine + "\n" + code == ImportLine + ("\n" + code);
    }
  }

  /** Whatever the model answers, or when it fails, the agent code contains the import of `BaseAgent`. */
  lemma AgentCodeImports(name: string, reply: Option<string>)
    ensures Contains(AgentCode(name, reply), ImportLine)
  {
    match reply
    case None =>
      StartsWithAppend(ImportLine, "\n\n" + (ClassLine(name) + (RunHead + name + RunTail)));
    case Some(r) =>
      EnsureImportProperties(Replace(Unfence(r, PythonFence), "(agents.base.BaseAgent)", "(BaseAgent)"));
  }

  /** The fallback template declares the class under the class name, inheriting from `BaseAgent`. */
  lemma FallbackDeclaresClass(name: string)
    ensures Contains(FallbackAgentCode(name), ClassLine(name))
    ensures ClassLine(name) == "class " + ClassName(name) + "(BaseAgent):"
  {
    var rest := RunHead + name + RunTail;
    StartsWithAppend(ClassLine(name), rest);
    ContainsAppend("\n\n", ClassLine(name) + rest, ClassLine(name));
    ContainsAppend(ImportLine, "\n\n" + (ClassLine(name) + rest), ClassLine(name));
  }

  /** A string never contains a longer one. */
  lemma {:induction false} ContainsShort(s: string, p: string)
    ensures Contains(s, p) ==> |p| <= |s|
    decreases |s|
  {
    if s != [] {
      ContainsShort(s[1..], p);
    }
  }

  /** The qualified base class begins with '(', so it cannot begin inside a prefix without one. */
  lemma {:induction false} ContainsPastPrefix(a: string, b: string)
    requires '(' !in a
    ensures Contains(a + b, QualifiedBase) ==> Contains(b, QualifiedBase)
    decreases |a|
  {
    if a == [] {
      assert a + b == b;
    } else {
      if |QualifiedBase| <= |a + b| {
        assert (a + b)[..|QualifiedBase|][0] == a[0];
      }
      assert (a + b)[1..] == a[1..] + b;
      ContainsPastPrefix(a[1..], b);
    }
  }

  /** The rewrite only puts '(' where there was a qualified base class, so a prefix free of '(' comes from the input unchanged. */
  lemma {:induction false} ReplacedPrefix(t: string, w: string)
    requires '(' !in w
    ensures StartsWith(Replace(t, QualifiedBase, BareBase), w) ==> StartsWith(t, w)
    decreases |t|
  {
    var out := Replace(t, QualifiedBase, BareBase);
    if w != [] && |t| >= |QualifiedBase| {
      if t[..|QualifiedBase|] == QualifiedBase {
        assert out == BareBase + Replace(t[|QualifiedBase|..], QualifiedBase, BareBase);
        assert out[0] == '(';
      } else {
        var rest := Replace(t[1..], QualifiedBase, BareBase);
        assert out == [t[0]] + rest;
        ReplacedPrefix(t[1..], w[1..]);
        if |w| <= |out| {
          assert out[..|w|] == [t[0]] + rest[..|w| - 1];
        }
        if |w| <= |t| {
          assert t[..|w|] == [t[0]] + t[1..][..|w| - 1];
        }
      }
    }
  }

  /** The replacement text cannot start a qualified base class, nor complete one with what follows it. */
  lemma BareBaseFront(rest: string)
    ensures !Contains(rest, QualifiedBase) ==> !Contains(BareBase + rest, QualifiedBase)
  {
    var out := BareBase + rest;
    assert QualifiedBase[1] == 'a' && BareBase[1] == 'B';
    if |QualifiedBase| <= |out| {
      assert out[..|QualifiedBase|][1] == BareBase[1];
    }
    assert out[1..] == BareBase[1..] + rest;
    ContainsPastPrefix(BareBase[1..], rest);
  }

  /** A character kept in front of the rewritten rest starts a qualified base class only if the input did. */
  lemma KeptFront(s: string)
    requires |s| >= |QualifiedBase| && s[..|QualifiedBase|] != QualifiedBase
    ensures var rest := Replace(s[1..], QualifiedBase, BareBase);
      !Contains(rest, QualifiedBase) ==> !Contains([s[0]] + rest, QualifiedBase)
  {
    var rest := Replace(s[1..], QualifiedBase, BareBase);
    var out := [s[0]] + rest;
    assert out[1..] == rest;
    ReplacedPrefix(s[1..], QualifiedBase[1..]);
    if |QualifiedBase| <= |out| {
      assert out[..|QualifiedBase|] == [s[0]] + rest[..|QualifiedBase| - 1];
    }
    assert s[..|QualifiedBase|] == [s[0]] + s[1..][..|QualifiedBase| - 1];
  }

  /** After the rewrite no fully qualified base class is left. */
  lemma {:induction false} ReplaceRemovesQualified(s: string)
    ensures !Contains(Replace(s, QualifiedBase, BareBase), QualifiedBase)
    decreases |s|
  {
    if |s| < |QualifiedBase| {
      ContainsShort(s, QualifiedBase);
    } else if s[..|QualifiedBase|] == QualifiedBase {
      ReplaceRemovesQualified(s[|QualifiedBase|..]);
      BareBaseFront(Replace(s[|QualifiedBase|..], QualifiedBase, BareBase));
    } else {
      ReplaceRemovesQualified(s[1..]);
      KeptFront(s);
    }
  }

  /** The cleaned agent code never inherits from the fully qualified base class. */
  lemma CleanAgentCodeUnqualified(reply: string)
    ensures !Contains(CleanAgentCode(reply), QualifiedBase)
  {
    var replaced := Replace(Unfence(reply, PythonFence), QualifiedBase, BareBase);
    ReplaceRemovesQualified(Unfence(reply, PythonFence));
    ContainsPastPrefix(ImportLine + "\n", replaced);
  }
}
