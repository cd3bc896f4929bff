/**
 * FormatMessage.parseLegacy: the fallback parser for `<#RRGGBB>`, `</#>`,
 * `<gradient:#A:#B>`, `</gradient>`, `<lang:key>` and `&x` / `§x` codes.
 * The input is taken as the matcher's token sequence, with the text between
 * matches as Text tokens held as UTF-16 code units, the way a Java String is. The message tree is an arena: node 0 is the root
 * and every other node names the node it was inserted under, so a node's
 * children are the later nodes naming it, in insertion order.
 */
module LegacyFormat {
  import opened Wrappers
  import opened JavaText

  /** A UTF-16 code unit: a Java `char`, surrogate halves included. */
  newtype CodeUnit = u: int | 0 <= u < 0x1_0000

  /** A Java String: its `length()` and `charAt` count code units. */
  type JavaString = seq<CodeUnit>

  /**
   * The UTF-16 form of one character: itself below U+10000, otherwise a
   * high surrogate carrying the upper ten bits of `c - 0x10000` followed by
   * a low surrogate carrying the lower ten.
   */
  function Utf16Char(c: char): (r: JavaString)
    ensures c as int < 0x1_0000 ==> r == [c as int as CodeUnit]
    ensures c as int >= 0x1_0000 ==>
      |r| == 2 && 0xD800 <= r[0] < 0xDC00 <= r[1] < 0xE000 &&
      0x1_0000 + 0x400 * (r[0] as int - 0xD800) + (r[1] as int - 0xDC00) == c as int
  {
    if c as int < 0x1_0000 then [c as int as CodeUnit]
    else
      var v := c as int - 0x1_0000;
      [(0xD800 + v / 0x400) as CodeUnit, (0xDC00 + v % 0x400) as CodeUnit]
  }

  /** A string as Java holds it: the UTF-16 forms of its characters, in order. */
  function Utf16(s: string): (r: JavaString)
    ensures |r| >= |s|
  {
    if s == [] then [] else Utf16(s[..|s| - 1]) + Utf16Char(s[|s| - 1])
  }

  /** One match of the token pattern, or the text between two matches. */
  datatype Token =
    | Text(text: JavaString)
    | HexOpen(hex: string)
    | HexClose
    | GradientOpen(from: string, to: string)
    | GradientClose
    | Lang(key: string)
    | Legacy(code: char)

  /** Message.empty(), Message.raw(text) and Message.translation(key). */
  datatype Content = Empty | Raw(text: JavaString) | Translation(key: string)

  /** A message node: its parent, its content and the style fields parseLegacy sets. */
  datatype Node = Node(parent: Option<nat>, content: Content, color: Option<string>, bold: Option<bool>, italic: Option<bool>)

  const ROOT: Node := Node(None, Empty, None, None, None)

  /** The fields of FormatState; the gradient endpoints are kept as their hex text. */
  datatype Format = Format(
    color: Option<string>,
    bold: bool, italic: bool, underline: bool, obfuscated: bool,
    gradientFrom: Option<string>, gradientTo: Option<string>)
  {
    /** hasGradient: both endpoints are set. */
    predicate HasGradient() {
      gradientFrom.Some? && gradientTo.Some?
    }

    /**
     * applyLegacy on a lower-cased code: l, o, n, k set a flag, r resets,
     * anything else is a colour. Only a reset clears a flag or the gradient.
     */
    function ApplyLegacy(c: char): (r: Format)
      ensures ToLowerChar(c) == 'r' <==> r == RESET
      ensures ToLowerChar(c) != 'r' ==>
        r.gradientFrom == gradientFrom && r.gradientTo == gradientTo &&
        (bold ==> r.bold) && (italic ==> r.italic) && (underline ==> r.underline) && (obfuscated ==> r.obfuscated)
      ensures r.color != color ==> r.color == None || r.color == Some(ColorFromCode(c))
    {
      match ToLowerChar(c)
      case 'l' => this.(bold := true)
      case 'o' => this.(italic := true)
      case 'n' => this.(underline := true)
      case 'k' => this.(obfuscated := true)
      case 'r' => RESET
      case _ => this.(color := Some(ColorFromCode(c)))
    }
  }

  /** A new FormatState, and the state reset() leaves: no colour, no flag, no gradient. */
  const RESET: Format := Format(None, false, false, false, false, None, None)

  /** getColorFromCode. */
  function ColorFromCode(code: char): (s: string)
    ensures |s| == 7 && s[0] == '#'
  {
    match ToLowerChar(code)
    case '0' => "#000000"
    case '1' => "#0000AA"
    case '2' => "#00AA00"
    case '3' => "#00AAAA"
    case '4' => "#AA0000"
    case '5' => "#AA00AA"
    case '6' => "#FFAA00"
    case '7' => "#AAAAAA"
    case '8' => "#555555"
    case '9' => "#5555FF"
    case 'a' => "#55FF55"
    case 'b' => "#55FFFF"
    case 'c' => "#FF5555"
    case 'd' => "#FF55FF"
    case 'e' => "#FFFF55"
    case 'f' => "#FFFFFF"
    case _ => "#FFFFFF"
  }

  /** The sixteen colour codes and, position by position, their colours. */
  const CODES: string := "0123456789abcdef"
  const PALETTE: seq<string> := [
    "#000000", "#0000AA", "#00AA00", "#00AAAA", "#AA0000", "#AA00AA", "#FFAA00", "#AAAAAA",
    "#555555", "#5555FF", "#55FF55", "#55FFFF", "#FF5555", "#FF55FF", "#FFFF55", "#FFFFFF"]

  /** applyState: the colour only when the state has one; bold and italic always. */
  function ApplyState(msg: Node, f: Format): (r: Node)
    ensures r.parent == msg.parent && r.content == msg.content
    ensures r.color == (if f.color.Some? then f.color else msg.color)
    ensures r.bold == Some(f.bold) && r.italic == Some(f.italic)
  {
    var colored := if f.color.Some? then msg.(color := f.color) else msg;
    colored.(bold := Some(f.bold), italic := Some(f.italic))
  }

  /** The node of character i of a gradient segment; `shade` is the interpolated colour at i of |text|. */
  function GradientNode(text: JavaString, i: nat, f: Format, parent: nat, shade: (string, string, nat, nat) -> string): Node
    requires i < |text| && f.HasGradient()
  {
    ApplyState(Node(Some(parent), Raw([text[i]]), Some(shade(f.gradientFrom.value, f.gradientTo.value, i, |text|)), None, None), f)
  }

  /** The nodes of the first n characters of a gradient segment. */
  function GradientNodes(text: JavaString, n: nat, f: Format, parent: nat, shade: (string, string, nat, nat) -> string): (r: seq<Node>)
    requires n <= |text| && f.HasGradient()
    ensures |r| == n
  {
    if n == 0 then [] else GradientNodes(text, n - 1, f, parent, shade) + [GradientNode(text, n - 1, f, parent, shade)]
  }

  /** appendText: nothing for an empty segment, one raw node without a gradient, one node per character with one. */
  function TextNodes(text: JavaString, f: Format, parent: nat, shade: (string, string, nat, nat) -> string): (r: seq<Node>)
    ensures text == [] <==> r == []
    ensures text != [] ==> |r| == if f.HasGradient() then |text| else 1
  {
    if text == [] then []
    else if !f.HasGradient() then [ApplyState(Node(Some(parent), Raw(text), None, None, None), f)]
    else GradientNodes(text, |text|, f, parent, shade)
  }

  /** The parser's state between matches: the arena, the stack (top last) and the format. */
  datatype Machine = Machine(nodes: seq<Node>, stack: seq<nat>, format: Format)

  const START: Machine := Machine([ROOT], [0], RESET)

  function Top(m: Machine): nat
    requires |m.stack| >= 1
  {
    m.stack[|m.stack| - 1]
  }

  /** One token of the loop. */
  function Step(m: Machine, t: Token, shade: (string, string, nat, nat) -> string): (r: Machine)
    requires |m.stack| >= 1
    ensures |r.stack| >= 1
  {
    match t
    case Text(text) => m.(nodes := m.nodes + TextNodes(text, m.format, Top(m), shade))
    case HexOpen(hex) =>
      var c := "#" + hex;
      Machine(m.nodes + [Node(Some(Top(m)), Empty, Some(c), None, None)], m.stack + [|m.nodes|], m.format.(color := Some(c)))
    case HexClose => if |m.stack| > 1 then m.(stack := m.stack[..|m.stack| - 1]) else m
    case GradientOpen(from, to) => m.(format := m.format.(gradientFrom := Some(from), gradientTo := Some(to)))
    case GradientClose => m.(format := m.format.(gradientFrom := None, gradientTo := None))
    case Lang(key) => m.(nodes := m.nodes + [Node(Some(Top(m)), Translation(key), None, None, None)])
    case Legacy(code) => m.(format := m.format.ApplyLegacy(code))
  }

  /** The loop over all tokens, from the root alone on the stack and a fresh state. */
  function Run(tokens: seq<Token>, shade: (string, string, nat, nat) -> string): (m: Machine)
    ensures |m.stack| >= 1
  {
    if tokens == [] then START else Step(Run(tokens[..|tokens| - 1], shade), tokens[|tokens| - 1], shade)
  }

  /**
   * The arena is a tree rooted at node 0, and the stack runs from the root
   * through existing nodes.
   */
  ghost predicate WellFormed(m: Machine) {
    |m.nodes| >= 1 && m.nodes[0] == ROOT &&
    |m.stack| >= 1 && m.stack[0] == 0 &&
    (forall i :: 0 <= i < |m.stack| ==> m.stack[i] < |m.nodes|) &&
    (forall j :: 0 < j < |m.nodes| ==> m.nodes[j].parent.Some? && m.nodes[j].parent.value < j)
  }

  class FormatState {
    var color: Option<string>
    var bold: bool
    var italic: bool
    var underline: bool
    var obfuscated: bool
    var gradientFrom: Option<string>
    var gradientTo: Option<string>

    function Snapshot(): Format
      reads this
    {
      Format(color, bold, italic, underline, obfuscated, gradientFrom, gradientTo)
    }

    constructor ()
      ensures Snapshot() == RESET
    {
      color := None;
      bold, italic, underline, obfuscated := false, false, false, false;
      gradientFrom, gradientTo := None, None;
    }

    predicate HasGradient()
      reads this
      ensures HasGradient() == Snapshot().HasGradient()
    {
      gradientFrom.Some? && gradientTo.Some?
    }

    /** reset(): every field back to its initial value. */
    method Reset()
      modifies this
      ensures Snapshot() == RESET
    {
      color := None;
      bold, italic, underline, obfuscated := false, false, false, false;
      gradientFrom, gradientTo := None, None;
    }
  }

  /** applyLegacy on the state object. */
  method ApplyLegacy(state: FormatState, c: char)
    modifies state
    ensures state.Snapshot() == old(state.Snapshot()).ApplyLegacy(c)
  {
    match ToLowerChar(c)
    case 'l' => state.bold := true;
    case 'o' => state.italic := true;
    case 'n' => state.underline := true;
    case 'k' => state.obfuscated := true;
    case 'r' => state.Reset();
    case _ => state.color := Some(ColorFromCode(c));
  }

  /** appendText, with the per-character loop of the gradient path. */
  method AppendText(nodes: seq<Node>, parent: nat, text: JavaString, state: FormatState, shade: (string, string, nat, nat) -> string)
    returns (r: seq<Node>)
    ensures r == nodes + TextNodes(text, state.Snapshot(), parent, shade)
  {
    if text == [] {
      return nodes;
    }
    if !state.HasGradient() {
      return nodes + [ApplyState(Node(Some(parent), Raw(text), None, None, None), state.Snapshot())];
    }
    var len := |text|;
    r := nodes;
    for i := 0 to len
      invariant r == nodes + GradientNodes(text, i, state.Snapshot(), parent, shade)
    {
      var m := Node(Some(parent), Raw([text[i]]), Some(shade(state.gradientFrom.value, state.gradientTo.value, i, len)), None, None);
      r := r + [ApplyState(m, state.Snapshot())];
    }
  }

  /** The body of the matcher loop for one token. */
  method StepToken(nodes: seq<Node>, stack: seq<nat>, state: FormatState, t: Token, shade: (string, string, nat, nat) -> string)
    returns (nodes': seq<Node>, stack': seq<nat>)
    requires |stack| >= 1
    modifies state
    ensures Machine(nodes', stack', state.Snapshot()) == Step(Machine(nodes, stack, old(state.Snapshot())), t, shade)
  {
    nodes', stack' := nodes, stack;
    var top := stack[|stack| - 1];
    match t
    case Text(text) =>
      nodes' := AppendText(nodes, top, text, state, shade);
    case HexOpen(hex) =>
      var colored := Node(Some(top), Empty, Some("#" + hex), None, None);
      nodes' := nodes + [colored];
      stack' := stack + [|nodes|];
      state.color := Some("#" + hex);
    case HexClose =>
      if |stack| > 1 {
        stack' := stack[..|stack| - 1];
      }
    case GradientOpen(from, to) =>
      state.gradientFrom := Some(from);
      state.gradientTo := Some(to);
    case GradientClose =>
      state.gradientFrom := None;
      state.gradientTo := None;
    case Lang(key) =>
      nodes' := nodes + [Node(Some(top), Translation(key), None, None, None)];
    case Legacy(code) =>
      ApplyLegacy(state, code);
  }

  /** parseLegacy over a token sequence; the result is the arena whose node 0 is the root. */
  method ParseLegacy(tokens: seq<Token>, shade: (string, string, nat, nat) -> string) returns (nodes: seq<Node>)
    ensures nodes == Run(tokens, shade).nodes
    ensures |nodes| >= 1 && nodes[0] == ROOT
  {
    nodes := [ROOT];
    var stack: seq<nat> := [0];
    var state := new FormatState();
    for i := 0 to |tokens|
      invariant Machine(nodes, stack, state.Snapshot()) == Run(tokens[..i], shade)
    {
      assert tokens[..i + 1][..i] == tokens[..i];
      nodes, stack := StepToken(nodes, stack, state, tokens[i], shade);
    }
    assert tokens[..|tokens|] == tokens;
    RunWellFormed(tokens, shade);
  }

  lemma {:induction false} GradientNodesUnder(text: JavaString, n: nat, f: Format, parent: nat, shade: (string, string, nat, nat) -> string)
    requires n <= |text| && f.HasGradient()
    ensures forall j :: 0 <= j < n ==> GradientNodes(text, n, f, parent, shade)[j].parent == Some(parent)
  {
    if n > 0 {
      GradientNodesUnder(text, n - 1, f, parent, shade);
    }
  }

  /** Every node appendText adds hangs under the given parent. */
  lemma TextNodesUnder(text: JavaString, f: Format, parent: nat, shade: (string, string, nat, nat) -> string)
    ensures forall j :: 0 <= j < |TextNodes(text, f, parent, shade)| ==> TextNodes(text, f, parent, shade)[j].parent == Some(parent)
  {
    if text != [] && f.HasGradient() {
      GradientNodesUnder(text, |text|, f, parent, shade);
    }
  }

  /** A step keeps the arena a tree and the stack a path through it, and only appends nodes. */
  lemma StepWellFormed(m: Machine, t: Token, shade: (string, string, nat, nat) -> string)
    requires WellFormed(m)
    ensures WellFormed(Step(m, t, shade))
    ensures m.nodes <= Step(m, t, shade).nodes
  {
    if t.Text? {
      TextNodesUnder(t.text, m.format, Top(m), shade);
    }
  }

  /** The stack never empties and the result is the root pushed first. */
  lemma {:induction false} RunWellFormed(tokens: seq<Token>, shade: (string, string, nat, nat) -> string)
    ensures WellFormed(Run(tokens, shade))
  {
    if tokens != [] {
      RunWellFormed(tokens[..|tokens| - 1], shade);
      StepWellFormed(Run(tokens[..|tokens| - 1], shade), tokens[|tokens| - 1], shade);
    }
  }

  /** Nodes are never removed: the arena after a prefix of the tokens is a prefix of the final arena. */
  lemma {:induction false} RunExtends(tokens: seq<Token>, k: nat, shade: (string, string, nat, nat) -> string)
    requires k <= |tokens|
    ensures Run(tokens[..k], shade).nodes <= Run(tokens, shade).nodes
  {
    if k < |tokens| {
      var init := tokens[..|tokens| - 1];
      assert init[..k] == tokens[..k];
      RunExtends(init, k, shade);
      RunWellFormed(init, shade);
      StepWellFormed(Run(init, shade), tokens[|tokens| - 1], shade);
    } else {
      assert tokens[..k] == tokens;
    }
  }

  /** The sixteen codes of either case give their palette colour. */
  lemma ColorTable(i: nat)
    requires i < 16
    ensures ColorFromCode(CODES[i]) == PALETTE[i]
    ensures i >= 10 ==> ColorFromCode((CODES[i] as int - 32) as char) == PALETTE[i]
  {
  }

  /** Every other character gives white, and every result is a palette colour. */
  lemma ColorDefault(c: char)
    ensures ToLowerChar(c) !in CODES ==> ColorFromCode(c) == "#FFFFFF"
    ensures ColorFromCode(c) in PALETTE
  {
  }

  /** The effect of each legacy code; `m` and any other non-format code change only the colour. */
  lemma LegacyCodes(f: Format)
    ensures f.ApplyLegacy('l') == f.(bold := true) && f.ApplyLegacy('L') == f.(bold := true)
    ensures f.ApplyLegacy('o') == f.(italic := true)
    ensures f.ApplyLegacy('n') == f.(underline := true)
    ensures f.ApplyLegacy('k') == f.(obfuscated := true)
    ensures f.ApplyLegacy('r') == RESET && f.ApplyLegacy('R') == RESET
    ensures f.ApplyLegacy('m') == f.(color := Some("#FFFFFF"))
    ensures f.ApplyLegacy('c') == f.(color := Some("#FF5555")) && f.ApplyLegacy('C') == f.(color := Some("#FF5555"))
  {
  }

  /** A colour code keeps the flags and the gradient: only reset clears them. */
  lemma ColorCodeKeepsFlags(f: Format, c: char)
    requires ToLowerChar(c) in CODES
    ensures f.ApplyLegacy(c) == f.(color := Some(ColorFromCode(c)))
  {
  }

  /** applyState ignores underline and obfuscated. */
  lemma ApplyStateIgnoresUnderline(msg: Node, f: Format, underline: bool, obfuscated: bool)
    ensures ApplyState(msg, f.(underline := underline, obfuscated := obfuscated)) == ApplyState(msg, f)
  {
  }

  /** A colour tag opens a coloured node under the top, pushes it and colours later text. */
  lemma HexOpenPushes(m: Machine, hex: string, shade: (string, string, nat, nat) -> string)
    requires WellFormed(m)
    ensures var r := Step(m, HexOpen(hex), shade);
      r.nodes == m.nodes + [Node(Some(Top(m)), Empty, Some("#" + hex), None, None)] &&
      r.stack == m.stack + [|m.nodes|] && Top(r) == |m.nodes| &&
      r.format.color == Some("#" + hex)
  {
  }

  /** `</#>` pops back to the enclosing node but keeps the colour the tag set. */
  lemma HexCloseKeepsColor(m: Machine, hex: string, shade: (string, string, nat, nat) -> string)
    requires WellFormed(m)
    ensures var r := Step(Step(m, HexOpen(hex), shade), HexClose, shade);
      r.stack == m.stack && r.format.color == Some("#" + hex)
  {
    var s := m.stack + [|m.nodes|];
    assert s[..|s| - 1] == m.stack;
  }

  /** `</#>` with only the root on the stack changes nothing. */
  lemma HexCloseAtRoot(m: Machine, shade: (string, string, nat, nat) -> string)
    requires |m.stack| == 1
    ensures Step(m, HexClose, shade) == m
  {
  }

  /** Empty text adds nothing; other text without a gradient adds one styled raw node under the top. */
  lemma PlainText(m: Machine, text: JavaString, shade: (string, string, nat, nat) -> string)
    requires |m.stack| >= 1 && !m.format.HasGradient()
    ensures text == [] ==> Step(m, Text(text), shade) == m
    ensures text != [] ==> (Step(m, Text(text), shade).nodes ==
      m.nodes + [Node(Some(Top(m)), Raw(text), m.format.color, Some(m.format.bold), Some(m.format.italic))])
  {
  }

  /**
   * Under a gradient each character becomes its own node, and a colour in
   * the state overrides the interpolated one.
   */
  lemma {:induction false} GradientText(text: JavaString, n: nat, f: Format, parent: nat, shade: (string, string, nat, nat) -> string, j: nat)
    requires j < n <= |text| && f.HasGradient()
    ensures GradientNodes(text, n, f, parent, shade)[j].content == Raw([text[j]])
    ensures GradientNodes(text, n, f, parent, shade)[j].color ==
      if f.color.Some? then f.color else Some(shade(f.gradientFrom.value, f.gradientTo.value, j, |text|))
  {
    if j < n - 1 {
      GradientText(text, n - 1, f, parent, shade, j);
    }
  }

  /** A gradient needs both endpoints; `</gradient>` clears both and leaves the rest. */
  lemma GradientTags(m: Machine, from: string, to: string, shade: (string, string, nat, nat) -> string)
    requires |m.stack| >= 1
    ensures Step(m, GradientOpen(from, to), shade).format.HasGradient()
    ensures var r := Step(m, GradientClose, shade);
      !r.format.HasGradient() && r.nodes == m.nodes && r.stack == m.stack &&
      r.format == m.format.(gradientFrom := None, gradientTo := None)
  {
  }

  /** `<lang:key>` inserts a translation node under the top and pushes nothing. */
  lemma LangInserts(m: Machine, key: string, shade: (string, string, nat, nat) -> string)
    requires |m.stack| >= 1
    ensures var r := Step(m, Lang(key), shade);
      r.nodes == m.nodes + [Node(Some(Top(m)), Translation(key), None, None, None)] &&
      r.stack == m.stack && r.format == m.format
  {
  }

  /** Text of the Basic Multilingual Plane keeps one code unit per character. */
  lemma {:induction false} Utf16OfBasic(s: string)
    requires forall i :: 0 <= i < |s| ==> s[i] as int < 0x1_0000
    ensures |Utf16(s)| == |s|
    ensures forall i :: 0 <= i < |s| ==> Utf16(s)[i] as int == s[i] as int
  {
    if s != [] {
      Utf16OfBasic(s[..|s| - 1]);
    }
  }

  /**
   * Under a gradient a character beyond U+FFFF becomes two nodes, one per
   * surrogate, shaded at steps 0 and 1 of 2, since appendText walks
   * `text.length()` code units.
   */
  lemma GradientSplitsSurrogates(c: char, f: Format, parent: nat, shade: (string, string, nat, nat) -> string)
    requires c as int >= 0x1_0000 && f.HasGradient() && f.color.None?
    ensures var units := Utf16([c]);
      var r := TextNodes(units, f, parent, shade);
      |r| == 2 && 0xD800 <= units[0] < 0xDC00 <= units[1] < 0xE000 &&
      r[0].content == Raw([units[0]]) && r[1].content == Raw([units[1]]) &&
      r[0].color == Some(shade(f.gradientFrom.value, f.gradientTo.value, 0, 2)) &&
      r[1].color == Some(shade(f.gradientFrom.value, f.gradientTo.value, 1, 2))
  {
    var units := Utf16([c]);
    assert [c][..0] == [];
    assert units == Utf16([]) + Utf16Char(c);
    assert units == Utf16Char(c);
    GradientText(units, 2, f, parent, shade, 0);
    GradientText(units, 2, f, parent, shade, 1);
  }
}
