/** `generate_open_cl.py`: renders the OpenCL capture shim's function-pointer
    typedefs, struct fields, `LoadFunction` lines, forwarding wrappers and
    Linux version script from the `<commands>` of the OpenCL registry
    (`cl.xml`). The parsed XML arrives as an `Element` tree; the file system
    is a map from path to contents. */
module GenerateOpenCl {
  import opened Wrappers
  import opened Text

  /** An ElementTree element: its tag, the text before its first child,
      its children, and the tail text after its end tag. */
  datatype Element = Element(tag: string, text: Option<string>, children: seq<Element>, tail: Option<string>)

  /** Python's truth value of an optional string: `None` and `""` are false. */
  predicate Present(t: Option<string>) {
    t.Some? && |t.value| > 0
  }

  /** An optional string inside an f-string: `None` prints as `None`. */
  function Show(t: Option<string>): string {
    match t
    case Some(s) => s
    case None => "None"
  }

  // ---------------------------------------------------------------------
  // `append` and `append_space`

  /** `append(parts, text)`: ignores a missing or empty text and otherwise
      adds the stripped text. */
  function Append(parts: seq<string>, text: Option<string>): seq<string> {
    if Present(text) then parts + [Strip(text.value)] else parts
  }

  /** `append_space(parts, text)`: the same, followed by one space. */
  function AppendSpace(parts: seq<string>, text: Option<string>): seq<string> {
    if Present(text) then parts + [Strip(text.value), " "] else parts
  }

  /** What `append` adds to the joined text. */
  function Str(text: Option<string>): string {
    if Present(text) then Strip(text.value) else ""
  }

  /** What `append_space` adds to the joined text. */
  function SpaceStr(text: Option<string>): string {
    if Present(text) then Strip(text.value) + " " else ""
  }

  /** Text made only of whitespace is still appended: as an empty part and
      a space. */
  lemma AppendSpaceOfBlank(parts: seq<string>, text: string)
    requires |text| > 0 && AllSpace(text)
    ensures AppendSpace(parts, Some(text)) == parts + ["", " "]
    ensures Append(parts, Some(text)) == parts + [""]
  {
    StripAllSpace(text);
  }

  lemma {:induction false} PushText(parts: seq<string>, x: string)
    ensures Concat(parts + [x]) == Concat(parts) + x
  {
    assert (parts + [x])[..|parts|] == parts;
  }

  lemma {:induction false} AppendText(parts: seq<string>, text: Option<string>)
    ensures Concat(Append(parts, text)) == Concat(parts) + Str(text)
  {
    if Present(text) {
      PushText(parts, Strip(text.value));
    }
  }

  lemma {:induction false} PushTwo(parts: seq<string>, x: string, y: string)
    ensures Concat(parts + [x, y]) == Concat(parts) + x + y
  {
    assert parts + [x, y] == (parts + [x]) + [y];
    PushText(parts + [x], y);
    PushText(parts, x);
  }

  lemma {:induction false} AppendSpaceText(parts: seq<string>, text: Option<string>)
    ensures Concat(AppendSpace(parts, text)) == Concat(parts) + SpaceStr(text)
  {
    if Present(text) {
      PushTwo(parts, Strip(text.value), " ");
    }
  }

  /** A text with no whitespace at either end is kept as it is. */
  predicate Clean(s: string) {
    |s| > 0 && !IsSpace(s[0]) && !IsSpace(s[|s| - 1])
  }

  lemma StripClean(s: string)
    requires Clean(s)
    ensures Strip(s) == s
  {
  }

  /** `text.strip()` is empty exactly when the text is all whitespace. */
  lemma StripEmptyIffBlank(s: string)
    ensures Strip(s) == "" <==> AllSpace(s)
  {
    if AllSpace(s) {
      StripAllSpace(s);
    }
    StripIsSlice(s);
    var i, j :| SpaceFramed(s, i, j) && Strip(s) == s[i..j];
    assert s == s[..i] + s[i..];
    AllSpaceConcat(s[..i], s[i..]);
    assert |Strip(s)| == j - i;
  }

  // ---------------------------------------------------------------------
  // The registry's commands, decoded

  /** A `<param>`: a qualifier, `<type>`, pointer tail, `<name>` and array
      tail; or one the script cannot take apart, kept as its joined text and
      its `<name>`; or the lone `<type>void</type>` of an empty parameter
      list. */
  datatype Param =
    | Decomposed(qualifier: Option<string>, typeText: Option<string>, typeTail: Option<string>,
                 name: Option<string>, arrayTail: Option<string>)
    | Raw(text: string, name: Option<string>)
    | VoidMarker

  /** A `<command>`: the text in front of the return `<type>`, the return
      type and its tail, the `<name>`, and the parameters. */
  datatype Command = Command(qualifier: Option<string>, returnType: Option<string>, returnTail: Option<string>,
                             name: Option<string>, params: seq<Param>)

  /** `e.itertext()`: the element's text, then each child's text pieces and
      tail, leaving out missing and empty pieces. */
  function IterText(e: Element): (r: seq<string>)
    decreases e, 1
  {
    (if Present(e.text) then [e.text.value] else []) + ChildrenText(e.children)
  }

  function ChildrenText(cs: seq<Element>): (r: seq<string>)
    decreases cs, 0
  {
    if |cs| == 0 then []
    else IterText(cs[0]) + (if Present(cs[0].tail) then [cs[0].tail.value] else []) + ChildrenText(cs[1..])
  }

  /** The text of a parameter the script cannot take apart: the pieces
      joined by one space, then each run of spaces made one. */
  function RawText(p: Element): (r: string)
    ensures forall i :: 0 <= i < |r| - 1 ==> !(r[i] == ' ' && r[i + 1] == ' ')
  {
    CollapseSpaces(Join(IterText(p), " "))
  }

  /** The parameters from the first `<param>` on, with the checks the three
      passes make: each is a `param` of one or two children; a lone `<type>`
      must read `void` and ends the list (what follows it is not looked
      at); a lone child otherwise must be a `<name>`; two children must be
      `<type>` and `<name>`, the name's tail empty or `[]`. */
  function DecodeParams(ps: seq<Element>): (r: Result<seq<Param>>)
    ensures r.Ok? ==> |r.value| <= |ps|
    ensures r.Ok? ==> forall i :: 0 <= i < |r.value| - 1 ==> !r.value[i].VoidMarker?
  {
    if |ps| == 0 then Ok([])
    else
      var p := ps[0];
      if p.tag != "param" then Err("param expected")
      else if |p.children| != 1 && |p.children| != 2 then Err("param must have one or two children")
      else if |p.children| == 1 && p.children[0].tag == "type" then
        if p.children[0].text == Some("void") then Ok([VoidMarker]) else Err("lone type must be void")
      else if |p.children| == 1 then
        if p.children[0].tag != "name" then Err("lone child must be a name")
        else
          match DecodeParams(ps[1..])
          case Ok(rest) => Ok([Raw(RawText(p), p.children[0].text)] + rest)
          case Err(m) => Err(m)
      else
        var ty := p.children[0];
        var nm := p.children[1];
        if ty.tag != "type" || nm.tag != "name" then Err("type and name expected")
        else if Present(nm.tail) && nm.tail != Some("[]") then Err("array tail must be []")
        else
          match DecodeParams(ps[1..])
          case Ok(rest) => Ok([Decomposed(p.text, ty.text, ty.tail, nm.text, nm.tail)] + rest)
          case Err(m) => Err(m)
  }

  /** One `<command>`: a `proto` of exactly `<type>` and a `<name>` with no
      tail, then its parameters. A `void` return type with no tail fails
      too: the wrapper pass calls `strip()` on that tail. */
  function DecodeCommand(c: Element): (r: Result<Command>)
    ensures r.Ok? ==> r.value.returnType == Some("void") ==> r.value.returnTail.Some?
  {
    if c.tag != "command" then Err("command expected")
    else if |c.children| == 0 then Err("command has no proto")
    else
      var proto := c.children[0];
      if proto.tag != "proto" then Err("proto expected")
      else if |proto.children| != 2 then Err("proto must have two children")
      else
        var ret := proto.children[0];
        var nm := proto.children[1];
        if ret.tag != "type" || nm.tag != "name" || Present(nm.tail) then Err("proto must be type and name")
        else if ret.text == Some("void") && ret.tail.None? then Err("void return type without tail")
        else
          match DecodeParams(c.children[1..])
          case Ok(ps) => Ok(Command(proto.text, ret.text, ret.tail, nm.text, ps))
          case Err(m) => Err(m)
  }

  function DecodeCommands(cs: seq<Element>): (r: Result<seq<Command>>)
    ensures r.Ok? ==> |r.value| == |cs|
    ensures r.Ok? ==> forall i :: 0 <= i < |cs| ==> DecodeCommand(cs[i]) == Ok(r.value[i])
    ensures r.Err? <==> exists i :: 0 <= i < |cs| && DecodeCommand(cs[i]).Err?
  {
    if |cs| == 0 then Ok([])
    else
      match DecodeCommand(cs[0])
      case Err(m) => Err(m)
      case Ok(c) =>
        match DecodeCommands(cs[1..])
        case Ok(rest) => Ok([c] + rest)
        case Err(m) => Err(m)
  }

  /** The first child of the registry tagged `commands`. */
  function FindCommands(children: seq<Element>): (r: Option<Element>)
    ensures r.Some? ==> r.value in children && r.value.tag == "commands"
    ensures r.None? ==> forall i :: 0 <= i < |children| ==> children[i].tag != "commands"
  {
    if |children| == 0 then None
    else if children[0].tag == "commands" then Some(children[0])
    else FindCommands(children[1..])
  }

  /** The commands of the registry. `assert commands` fails both when there
      is no `<commands>` element and when it has no children (an element's
      truth value is whether it has children). */
  function Decode(registry: Element): (r: Result<seq<Command>>)
    ensures r.Ok? <==> exists cmds :: FindCommands(registry.children) == Some(cmds) && |cmds.children| > 0
                                      && DecodeCommands(cmds.children).Ok?
  {
    match FindCommands(registry.children)
    case None => Err("no commands element")
    case Some(commands) =>
      if |commands.children| == 0 then Err("commands element is empty")
      else DecodeCommands(commands.children)
  }

  // ---------------------------------------------------------------------
  // First pass: struct fields, `LoadFunction` lines, function names

  function StructLine(c: Command): string {
    "  PFN_" + Show(c.name) + " " + Show(c.name) + " = nullptr;"
  }

  function LoadLine(c: Command): string {
    "LoadFunction(" + Show(c.name) + ");"
  }

  /** The first pass over the commands, in registry order. */
  method FirstPass(cmds: seq<Command>) returns (structLines: seq<string>, loadLines: seq<string>, names: seq<string>)
    ensures structLines == Lines(StructLine, cmds)
    ensures loadLines == Lines(LoadLine, cmds)
    ensures names == Names(cmds)
  {
    structLines, loadLines, names := [], [], [];
    var i := 0;
    while i < |cmds|
      invariant 0 <= i <= |cmds|
      invariant structLines == Lines(StructLine, cmds[..i])
      invariant loadLines == Lines(LoadLine, cmds[..i])
      invariant names == Names(cmds[..i])
    {
      var name := cmds[i].name;
      LinesSnoc(StructLine, cmds, i);
      LinesSnoc(LoadLine, cmds, i);
      assert cmds[..i + 1][..i] == cmds[..i];
      structLines := structLines + ["  PFN_" + Show(name) + " " + Show(name) + " = nullptr;"];
      loadLines := loadLines + ["LoadFunction(" + Show(name) + ");"];
      names := names + [Show(name)];
      i := i + 1;
    }
    assert cmds[..i] == cmds;
  }

  // ---------------------------------------------------------------------
  // Second and third passes: `using PFN_` typedefs and forwarding wrappers

  /** The three loops over a command's parameters: the typedef's parameter
      list, the wrapper's parameter list, and the arguments of the wrapper's
      forwarding call. */
  datatype Pass = TypedefPass | WrapperPass | CallPass

  /** What a loop adds for one parameter that is not the `void` marker. A
      parameter the script cannot take apart is dumped as its text, except
      in a call, which passes its name. */
  function ParamText(pass: Pass, p: Param): string {
    match p
    case VoidMarker => ""
    case Raw(text, n) => if pass.CallPass? then Str(n) else Str(Some(text))
    case Decomposed(q, ty, tt, n, at) =>
      match pass
      case TypedefPass =>
        SpaceStr(q) + Str(ty) + Str(tt) + Str(at) + " " + Str(Some("/*" + Show(n))) + Str(at) + Str(Some("*/"))
      case WrapperPass => SpaceStr(q) + Str(ty) + Str(tt) + " " + Str(n) + Str(at)
      case CallPass => Str(n)
  }

  /** The separator in front of every parameter but the first. */
  function Sep(first: bool): string {
    if first then "" else ", "
  }

  /** A loop's text from here on: a `void` marker stops the list right
      after its separator. */
  function ParamsText(pass: Pass, ps: seq<Param>, first: bool): string
  {
    if |ps| == 0 then ""
    else if ps[0].VoidMarker? then Sep(first)
    else Sep(first) + ParamText(pass, ps[0]) + ParamsText(pass, ps[1..], false)
  }

  /** The typedef line up to the opening parenthesis of its parameters. */
  function TypedefHead(c: Command): string {
    SpaceStr(Some("using")) + SpaceStr(Some("PFN_" + Show(c.name))) + SpaceStr(Some("="))
    + SpaceStr(Some("std::add_pointer<CL_API_ENTRY")) + SpaceStr(c.qualifier)
    + Str(c.returnType) + Str(c.returnTail) + " " + SpaceStr(Some("CL_API_CALL("))
  }

  /** The line of `opencl_typedefs_gen.txt` for one command. */
  function TypedefLine(c: Command): string {
    TypedefHead(c) + ParamsText(TypedefPass, c.params, true) + Str(Some(")>::type;"))
  }

  /** The wrapper's signature up to its parameters. */
  function WrapperHead(c: Command): string {
    SpaceStr(Some("CL_API_ENTRY")) + SpaceStr(c.qualifier) + Str(c.returnType) + Str(c.returnTail)
    + " " + SpaceStr(Some("CL_API_CALL")) + Str(Some(Show(c.name) + "(\n"))
  }

  /** The wrapper forwards the call's value unless it returns plain `void`
      (`void*` and the like still return). */
  predicate NeedsReturn(c: Command) {
    c.returnType != Some("void") || (c.returnTail.Some? && Strip(c.returnTail.value) != "")
  }

  function ReturnKeyword(c: Command): string {
    if NeedsReturn(c) then "return " else ""
  }

  /** The wrapper between its parameters and the call's arguments: the
      body's opening, the `LOG` line and the call through the loaded
      function pointer. */
  function WrapperBody(c: Command): string {
    Str(Some(") {")) + LogLine(c) + "\n  " + ReturnKeyword(c) + CallTarget(c)
  }

  function LogLine(c: Command): string {
    "\n  LOG(\"" + Show(c.name) + "\");"
  }

  function CallTarget(c: Command): string {
    "gf_layers::opencl_capture::GetGlobalData()->opencl_pointers." + Show(c.name) + "("
  }

  /** The entry of `opencl_prototypes_gen.txt` for one command. */
  function WrapperText(c: Command): string {
    WrapperHead(c) + ParamsText(WrapperPass, c.params, true) + WrapperBody(c)
    + ParamsText(CallPass, c.params, true) + ");\n}\n\n"
  }

  lemma Assoc(a: string, b: string, c: string)
    ensures a + b + c == a + (b + c)
  {
  }

  lemma Assoc4(a: string, b: string, c: string, d: string)
    ensures a + (b + c + d) == a + b + c + d
  {
  }

  /** `append` on a part list whose join is `base + piece`. */
  method AppendStep(parts: seq<string>, ghost base: string, ghost piece: string, t: Option<string>)
    returns (r: seq<string>, ghost rpiece: string)
    requires Concat(parts) == base + piece
    ensures r == Append(parts, t) && rpiece == piece + Str(t) && Concat(r) == base + rpiece
  {
    r := Append(parts, t);
    rpiece := piece + Str(t);
    AppendText(parts, t);
    Assoc(base, piece, Str(t));
  }

  /** `append_space` on a part list whose join is `base + piece`. */
  method AppendSpaceStep(parts: seq<string>, ghost base: string, ghost piece: string, t: Option<string>)
    returns (r: seq<string>, ghost rpiece: string)
    requires Concat(parts) == base + piece
    ensures r == AppendSpace(parts, t) && rpiece == piece + SpaceStr(t) && Concat(r) == base + rpiece
  {
    r := AppendSpace(parts, t);
    rpiece := piece + SpaceStr(t);
    AppendSpaceText(parts, t);
    Assoc(base, piece, SpaceStr(t));
  }

  /** A literal part added as it is (`parts.append(x)`). */
  method PushStep(parts: seq<string>, ghost base: string, ghost piece: string, x: string)
    returns (r: seq<string>, ghost rpiece: string)
    requires Concat(parts) == base + piece
    ensures r == parts + [x] && rpiece == piece + x && Concat(r) == base + rpiece
  {
    r := parts + [x];
    rpiece := piece + x;
    PushText(parts, x);
    Assoc(base, piece, x);
  }

  /** The opening of the second pass's part list for one command. */
  method TypedefHeadParts(c: Command) returns (parts: seq<string>)
    ensures Concat(parts) == TypedefHead(c)
  {
    parts := [];
    ghost var text := "";
    parts, text := AppendSpaceStep(parts, "", text, Some("using"));
    assert text == SpaceStr(Some("using"));
    parts, text := AppendSpaceStep(parts, "", text, Some("PFN_" + Show(c.name)));
    parts, text := AppendSpaceStep(parts, "", text, Some("="));
    parts, text := AppendSpaceStep(parts, "", text, Some("std::add_pointer<CL_API_ENTRY"));
    parts, text := AppendSpaceStep(parts, "", text, c.qualifier);
    parts, text := AppendStep(parts, "", text, c.returnType);
    parts, text := AppendStep(parts, "", text, c.returnTail);
    parts, text := PushStep(parts, "", text, " ");
    parts, text := AppendSpaceStep(parts, "", text, Some("CL_API_CALL("));
    assert "" + text == text;
  }

  /** The opening of the third pass's part list for one command. */
  method WrapperHeadParts(c: Command) returns (parts: seq<string>)
    ensures Concat(parts) == WrapperHead(c)
  {
    parts := [];
    ghost var text := "";
    parts, text := AppendSpaceStep(parts, "", text, Some("CL_API_ENTRY"));
    assert text == SpaceStr(Some("CL_API_ENTRY"));
    parts, text := AppendSpaceStep(parts, "", text, c.qualifier);
    parts, text := AppendStep(parts, "", text, c.returnType);
    parts, text := AppendStep(parts, "", text, c.returnTail);
    parts, text := PushStep(parts, "", text, " ");
    parts, text := AppendSpaceStep(parts, "", text, Some("CL_API_CALL"));
    parts, text := AppendStep(parts, "", text, Some(Show(c.name) + "(\n"));
    assert "" + text == text;
  }

  /** The parts the second pass appends for a parameter it takes apart. */
  method AppendDecomposedTypedef(parts: seq<string>, param: Param) returns (r: seq<string>)
    requires param.Decomposed?
    ensures Concat(r) == Concat(parts) + ParamText(TypedefPass, param)
  {
    var Decomposed(q, ty, tt, n, at) := param;
    r := parts;
    ghost var base := Concat(parts);
    ghost var text := "";
    assert base + text == base;
    r, text := AppendSpaceStep(r, base, text, q);
    assert text == SpaceStr(q);
    r, text := AppendStep(r, base, text, ty);
    r, text := AppendStep(r, base, text, tt);
    r, text := AppendStep(r, base, text, at);
    r, text := PushStep(r, base, text, " ");
    r, text := AppendStep(r, base, text, Some("/*" + Show(n)));
    r, text := AppendStep(r, base, text, at);
    r, text := AppendStep(r, base, text, Some("*/"));
  }

  /** The parts the third pass appends for a parameter it takes apart. */
  method AppendDecomposedWrapper(parts: seq<string>, param: Param) returns (r: seq<string>)
    requires param.Decomposed?
    ensures Concat(r) == Concat(parts) + ParamText(WrapperPass, param)
  {
    var Decomposed(q, ty, tt, n, at) := param;
    r := parts;
    ghost var base := Concat(parts);
    ghost var text := "";
    assert base + text == base;
    r, text := AppendSpaceStep(r, base, text, q);
    assert text == SpaceStr(q);
    r, text := AppendStep(r, base, text, ty);
    r, text := AppendStep(r, base, text, tt);
    r, text := PushStep(r, base, text, " ");
    r, text := AppendStep(r, base, text, n);
    r, text := AppendStep(r, base, text, at);
  }

  /** The parts one loop appends for a parameter that is not the `void`
      marker. */
  method AppendParam(parts: seq<string>, pass: Pass, param: Param) returns (r: seq<string>)
    requires !param.VoidMarker?
    ensures Concat(r) == Concat(parts) + ParamText(pass, param)
  {
    if param.Decomposed? && pass.TypedefPass? {
      r := AppendDecomposedTypedef(parts, param);
    } else if param.Decomposed? && pass.WrapperPass? {
      r := AppendDecomposedWrapper(parts, param);
    } else if pass.CallPass? {
      r := Append(parts, param.name);
      AppendText(parts, param.name);
    } else {
      r := Append(parts, Some(param.text));
      AppendText(parts, Some(param.text));
    }
  }

  /** `ParamsText` from position `i` on. */
  lemma ParamsTextAt(pass: Pass, ps: seq<Param>, i: int, first: bool)
    requires 0 <= i < |ps|
    ensures ps[i].VoidMarker? ==> ParamsText(pass, ps[i..], first) == Sep(first)
    ensures !ps[i].VoidMarker? ==>
      ParamsText(pass, ps[i..], first) == Sep(first) + ParamText(pass, ps[i]) + ParamsText(pass, ps[i + 1..], false)
  {
    assert ps[i..][1..] == ps[i + 1..];
  }

  /** One round of a parameter loop: the separator (none before the first
      parameter), then either a stop at the `void` marker or the parameter
      itself. */
  method ParamStep(r: seq<string>, pass: Pass, ps: seq<Param>, i: nat, first: bool)
    returns (r': seq<string>, stop: bool)
    requires i < |ps|
    ensures stop == ps[i].VoidMarker?
    ensures stop ==> Concat(r') == Concat(r) + ParamsText(pass, ps[i..], first)
    ensures !stop ==>
      Concat(r') + ParamsText(pass, ps[i + 1..], false) == Concat(r) + ParamsText(pass, ps[i..], first)
  {
    ParamsTextAt(pass, ps, i, first);
    r' := r;
    if !first {
      r' := r' + [", "];
      PushText(r, ", ");
    }
    assert Concat(r') == Concat(r) + Sep(first);
    stop := ps[i].VoidMarker?;
    if !stop {
      ghost var mid := Concat(r');
      ghost var pt := ParamText(pass, ps[i]);
      ghost var rest := ParamsText(pass, ps[i + 1..], false);
      r' := AppendParam(r', pass, ps[i]);
      Assoc4(Concat(r), Sep(first), pt, rest);
      Assoc(Concat(r), Sep(first), pt);
      Assoc(mid, pt, rest);
    }
  }

  /** A loop over a command's parameters. */
  method AppendParams(parts: seq<string>, pass: Pass, ps: seq<Param>) returns (r: seq<string>)
    ensures Concat(r) == Concat(parts) + ParamsText(pass, ps, true)
  {
    ghost var target := Concat(parts) + ParamsText(pass, ps, true);
    r := parts;
    var first := true;
    var i := 0;
    ParamsTextFrom(pass, ps, Concat(parts));
    while i < |ps|
      invariant 0 <= i <= |ps|
      invariant first <==> i == 0
      invariant Concat(r) + ParamsText(pass, ps[i..], first) == target
    {
      var stop;
      r, stop := ParamStep(r, pass, ps, i, first);
      if stop {
        return;
      }
      first := false;
      i := i + 1;
    }
    ParamsTextDone(pass, ps, first, Concat(r));
  }

  lemma ParamsTextFrom(pass: Pass, ps: seq<Param>, s: string)
    ensures s + ParamsText(pass, ps[0..], true) == s + ParamsText(pass, ps, true)
  {
    assert ps[0..] == ps;
  }

  lemma ParamsTextDone(pass: Pass, ps: seq<Param>, first: bool, s: string)
    ensures s + ParamsText(pass, ps[|ps|..], first) == s
  {
    assert ps[|ps|..] == [];
    assert s + "" == s;
  }

  /** The second pass's body for one command: builds the part list and
      joins it. */
  method RenderTypedef(c: Command) returns (line: string)
    ensures line == TypedefLine(c)
  {
    var parts := TypedefHeadParts(c);
    parts := AppendParams(parts, TypedefPass, c.params);
    ghost var text := TypedefHead(c) + ParamsText(TypedefPass, c.params, true);
    parts, text := AppendStep(parts, "", text, Some(")>::type;"));
    line := Concat(parts);
  }

  /** The parts the third pass appends between the parameters and the
      call's arguments. */
  method AppendWrapperBody(parts: seq<string>, c: Command) returns (r: seq<string>)
    ensures Concat(r) == Concat(parts) + WrapperBody(c)
  {
    r := parts;
    ghost var base := Concat(parts);
    ghost var body := "";
    assert base + body == base;
    r, body := AppendStep(r, base, body, Some(") {"));
    assert body == Str(Some(") {"));
    r, body := PushStep(r, base, body, LogLine(c));
    r, body := PushStep(r, base, body, "\n  ");
    if c.returnType != Some("void") || (c.returnTail.Some? && Strip(c.returnTail.value) != "") {
      r, body := PushStep(r, base, body, "return ");
    } else {
      assert body + ReturnKeyword(c) == body;
    }
    assert body == Str(Some(") {")) + LogLine(c) + "\n  " + ReturnKeyword(c);
    r, body := PushStep(r, base, body, CallTarget(c));
  }

  /** The third pass's body for one command. */
  method RenderWrapper(c: Command) returns (text: string)
    ensures text == WrapperText(c)
  {
    var parts := WrapperHeadParts(c);
    parts := AppendParams(parts, WrapperPass, c.params);
    parts := AppendWrapperBody(parts, c);
    parts := AppendParams(parts, CallPass, c.params);
    ghost var t := WrapperHead(c) + ParamsText(WrapperPass, c.params, true) + WrapperBody(c)
      + ParamsText(CallPass, c.params, true);
    ghost var last := "";
    assert t + last == t;
    parts, last := PushStep(parts, t, last, ");\n}\n\n");
    text := Concat(parts);
  }

  // ---------------------------------------------------------------------
  // The passes over all commands, and the files written

  /** One entry per command, in registry order. */
  function Lines(render: Command -> string, cmds: seq<Command>): (r: seq<string>)
    ensures |r| == |cmds|
  {
    if |cmds| == 0 then [] else Lines(render, cmds[..|cmds| - 1]) + [render(cmds[|cmds| - 1])]
  }

  /** One more command adds its entry at the end. */
  lemma LinesSnoc(render: Command -> string, cmds: seq<Command>, i: nat)
    requires i < |cmds|
    ensures Lines(render, cmds[..i + 1]) == Lines(render, cmds[..i]) + [render(cmds[i])]
  {
    assert cmds[..i + 1][..i] == cmds[..i];
  }

  /** Entry `k` is command `k`'s. */
  lemma {:induction false} LinesAt(render: Command -> string, cmds: seq<Command>, k: nat)
    requires k < |cmds|
    ensures Lines(render, cmds)[k] == render(cmds[k])
  {
    if k < |cmds| - 1 {
      LinesAt(render, cmds[..|cmds| - 1], k);
    }
  }

  function Names(cmds: seq<Command>): (r: seq<string>)
    ensures |r| == |cmds|
    ensures forall k :: 0 <= k < |cmds| ==> r[k] == Show(cmds[k].name)
  {
    if |cmds| == 0 then [] else Names(cmds[..|cmds| - 1]) + [Show(cmds[|cmds| - 1].name)]
  }

  /** The second pass over all commands. */
  method SecondPass(cmds: seq<Command>) returns (lines: seq<string>)
    ensures lines == Lines(TypedefLine, cmds)
  {
    lines := [];
    var i := 0;
    while i < |cmds|
      invariant 0 <= i <= |cmds|
      invariant lines == Lines(TypedefLine, cmds[..i])
    {
      lines := SecondPassStep(lines, cmds, i);
      i := i + 1;
    }
    assert cmds[..i] == cmds;
  }

  method SecondPassStep(lines: seq<string>, cmds: seq<Command>, i: nat) returns (r: seq<string>)
    requires i < |cmds| && lines == Lines(TypedefLine, cmds[..i])
    ensures r == Lines(TypedefLine, cmds[..i + 1])
  {
    var line := RenderTypedef(cmds[i]);
    LinesSnoc(TypedefLine, cmds, i);
    r := lines + [line];
  }

  /** The third pass over all commands. */
  method ThirdPass(cmds: seq<Command>) returns (texts: seq<string>)
    ensures texts == Lines(WrapperText, cmds)
  {
    texts := [];
    var i := 0;
    while i < |cmds|
      invariant 0 <= i <= |cmds|
      invariant texts == Lines(WrapperText, cmds[..i])
    {
      texts := ThirdPassStep(texts, cmds, i);
      i := i + 1;
    }
    assert cmds[..i] == cmds;
  }

  method ThirdPassStep(texts: seq<string>, cmds: seq<Command>, i: nat) returns (r: seq<string>)
    requires i < |cmds| && texts == Lines(WrapperText, cmds[..i])
    ensures r == Lines(WrapperText, cmds[..i + 1])
  {
    var text := RenderWrapper(cmds[i]);
    LinesSnoc(WrapperText, cmds, i);
    r := texts + [text];
  }

  /** The lines of the Linux version script: every function name global,
      everything else local. */
  function LinkerScriptLines(names: seq<string>): (r: seq<string>)
    ensures |r| == |names| + 7
  {
    ["# Linker script for Linux.", "# Generated file; do not edit.", "{", "global:"]
    + seq(|names|, i requires 0 <= i < |names| => "    " + names[i] + ";")
    + ["local:", "    *;", "};"]
  }

  /** The version script's lines, built as the script builds them. */
  method LinkerScript(names: seq<string>) returns (lines: seq<string>)
    ensures lines == LinkerScriptLines(names)
  {
    lines := ["# Linker script for Linux.", "# Generated file; do not edit.", "{", "global:"];
    var i := 0;
    while i < |names|
      invariant 0 <= i <= |names|
      invariant |lines| == 4 + i
      invariant lines[..4] == LinkerScriptLines(names)[..4]
      invariant forall k :: 0 <= k < i ==> lines[4 + k] == "    " + names[k] + ";"
    {
      lines := lines + ["    " + names[i] + ";"];
      i := i + 1;
    }
    lines := lines + ["local:", "    *;", "};"];
  }

  const TypedefsPath := "temp/opencl_typedefs_gen.txt"
  const StructFieldsPath := "temp/opencl_struct_fields_gen.txt"
  const LoadFunctionsPath := "temp/opencl_load_functions_gen.txt"
  const PrototypesPath := "temp/opencl_prototypes_gen.txt"
  const LinkerScriptPath := "src/gf_layers_opencl_capture/gf_layers_opencl_capture.lds"

  /** The five files the script writes for the given commands. */
  function Outputs(cmds: seq<Command>): (out: map<string, string>)
    ensures out.Keys == {TypedefsPath, StructFieldsPath, LoadFunctionsPath, PrototypesPath, LinkerScriptPath}
  {
    map[TypedefsPath := Join(Lines(TypedefLine, cmds), "\n"),
        StructFieldsPath := Join(Lines(StructLine, cmds), "\n"),
        LoadFunctionsPath := Join(Lines(LoadLine, cmds), "\n"),
        PrototypesPath := Join(Lines(WrapperText, cmds), "\n"),
        LinkerScriptPath := Join(LinkerScriptLines(Names(cmds)), "\n")]
  }

  /** Writing the five files one after the other leaves the file system
      as `Outputs` overlaid on it. */
  lemma WriteFiles(fs: map<string, string>, typedefs: string, fields: string, loads: string,
                   prototypes: string, script: string)
    ensures fs[TypedefsPath := typedefs][StructFieldsPath := fields][LoadFunctionsPath := loads]
              [PrototypesPath := prototypes][LinkerScriptPath := script]
      == fs + map[TypedefsPath := typedefs, StructFieldsPath := fields, LoadFunctionsPath := loads,
                  PrototypesPath := prototypes, LinkerScriptPath := script]
  {
  }

  /** The whole script over the file system `fs`: a registry that fails a
      check aborts the run before anything is written; otherwise the five
      files are (over)written and every other file is left alone. */
  method Generate(registry: Element, fs: map<string, string>) returns (r: Result<map<string, string>>)
    ensures r.Err? <==> Decode(registry).Err?
    ensures r.Ok? ==> r.value == fs + Outputs(Decode(registry).value)
  {
    var decoded := Decode(registry);
    if decoded.Err? {
      return Err(decoded.reason);
    }
    var cmds := decoded.value;
    var structLines, loadLines, names := FirstPass(cmds);
    var typedefLines := SecondPass(cmds);
    var wrapperTexts := ThirdPass(cmds);
    var scriptLines := LinkerScript(names);
    var typedefs, fields, loads := Join(typedefLines, "\n"), Join(structLines, "\n"), Join(loadLines, "\n");
    var prototypes, script := Join(wrapperTexts, "\n"), Join(scriptLines, "\n");
    WriteFiles(fs, typedefs, fields, loads, prototypes, script);
    var out := fs[TypedefsPath := typedefs][StructFieldsPath := fields][LoadFunctionsPath := loads]
               [PrototypesPath := prototypes][LinkerScriptPath := script];
    r := Ok(out);
  }

  // ---------------------------------------------------------------------
  // Properties of the rendering

  /** Nothing after a `void` marker is rendered; the marker leaves its
      separator behind, so a marker after other parameters would leave a
      dangling `", "`. */
  lemma {:induction false} VoidEndsParams(pass: Pass, ps: seq<Param>, rest: seq<Param>, first: bool)
    requires forall i :: 0 <= i < |ps| ==> !ps[i].VoidMarker?
    ensures ParamsText(pass, ps + [VoidMarker] + rest, first)
      == ParamsText(pass, ps, first) + (if |ps| == 0 then Sep(first) else ", ")
  {
    if |ps| == 0 {
      assert ps + [VoidMarker] + rest == [VoidMarker] + rest;
    } else {
      assert (ps + [VoidMarker] + rest)[1..] == ps[1..] + [VoidMarker] + rest;
      VoidEndsParams(pass, ps[1..], rest, false);
      if |ps| == 1 {
        assert ParamsText(pass, ps[1..], false) == "";
      }
    }
  }

  /** What each parameter renders to, in order. */
  function ParamTexts(pass: Pass, ps: seq<Param>): (r: seq<string>)
    ensures |r| == |ps|
  {
    seq(|ps|, i requires 0 <= i < |ps| => ParamText(pass, ps[i]))
  }

  /** Without a `void` marker every loop is the parameters' texts joined by
      `", "`. */
  lemma {:induction false} ParamsTextJoin(pass: Pass, ps: seq<Param>, first: bool)
    requires |ps| >= 1
    requires forall i :: 0 <= i < |ps| ==> !ps[i].VoidMarker?
    ensures ParamsText(pass, ps, first) == Sep(first) + Join(ParamTexts(pass, ps), ", ")
    decreases |ps|
  {
    if |ps| == 1 {
      ParamsTextJoinOne(pass, ps, first);
    } else {
      ParamsTextJoin(pass, ps[1..], false);
      ParamsTextJoinStep(pass, ps, first);
    }
  }

  lemma ParamsTextJoinOne(pass: Pass, ps: seq<Param>, first: bool)
    requires |ps| == 1 && !ps[0].VoidMarker?
    ensures ParamsText(pass, ps, first) == Sep(first) + Join(ParamTexts(pass, ps), ", ")
  {
    assert ParamTexts(pass, ps)[0] == ParamText(pass, ps[0]);
    assert ParamsText(pass, ps[1..], false) == "";
    assert ParamsText(pass, ps, first) == Sep(first) + ParamText(pass, ps[0]) + "";
  }

  lemma ParamsTextJoinStep(pass: Pass, ps: seq<Param>, first: bool)
    requires |ps| >= 2 && !ps[0].VoidMarker?
    requires ParamsText(pass, ps[1..], false) == ", " + Join(ParamTexts(pass, ps[1..]), ", ")
    ensures ParamsText(pass, ps, first) == Sep(first) + Join(ParamTexts(pass, ps), ", ")
  {
    var t0 := ParamText(pass, ps[0]);
    var rest := Join(ParamTexts(pass, ps[1..]), ", ");
    ParamTextsCons(pass, ps);
    assert ParamsText(pass, ps, first) == Sep(first) + t0 + (", " + rest);
    Assoc(Sep(first), t0, ", " + rest);
    Assoc(t0, ", ", rest);
  }

  /** The texts of a list of at least two parameters, joined: the first
      text, a separator, the rest joined. */
  lemma ParamTextsCons(pass: Pass, ps: seq<Param>)
    requires |ps| >= 2
    ensures Join(ParamTexts(pass, ps), ", ") == ParamText(pass, ps[0]) + ", " + Join(ParamTexts(pass, ps[1..]), ", ")
  {
    var texts := ParamTexts(pass, ps);
    assert ParamTexts(pass, ps[1..]) == texts[1..];
  }

  /** A forwarding call passes the parameters' names, in order, whatever
      the parameters' types: when every name is clean the arguments are the
      names joined by `", "`. */
  lemma CallArgsAreNames(ps: seq<Param>, names: seq<string>)
    requires |ps| == |names| >= 1
    requires forall i :: 0 <= i < |ps| ==> !ps[i].VoidMarker? && ps[i].name == Some(names[i]) && Clean(names[i])
    ensures ParamsText(CallPass, ps, true) == Join(names, ", ")
  {
    ParamsTextJoin(CallPass, ps, true);
    forall i | 0 <= i < |ps|
      ensures ParamTexts(CallPass, ps)[i] == names[i]
    {
      StripClean(names[i]);
    }
    assert ParamTexts(CallPass, ps) == names;
  }

  /** The line break after the wrapper's `(` is stripped away with the
      rest of the whitespace: the name and `(` are kept, the break is not. */
  lemma NameLineBreakStripped(n: string)
    requires Clean(n)
    ensures Str(Some(n + "(\n")) == n + "("
  {
    var s := n + "(\n";
    assert s[0] == n[0] && IsSpace(s[|s| - 1]);
    assert Strip(s) == Strip(s[..|s| - 1]);
    var t := s[..|s| - 1];
    assert t == n + "(";
    assert t[0] == n[0] && !IsSpace(t[|t| - 1]);
  }

  /** The wrapper returns the call's value exactly when the return type is
      not `void` or something other than whitespace follows it. */
  lemma ReturnStatement(c: Command)
    ensures NeedsReturn(c) <==>
      (c.returnType != Some("void") || (c.returnTail.Some? && !AllSpace(c.returnTail.value)))
  {
    if c.returnTail.Some? {
      StripEmptyIffBlank(c.returnTail.value);
    }
  }

  lemma ScriptFrameUnbroken(head: seq<string>, foot: seq<string>)
    requires head == ["# Linker script for Linux.", "# Generated file; do not edit.", "{", "global:"]
    requires foot == ["local:", "    *;", "};"]
    ensures forall i :: 0 <= i < |head| ==> '\n' !in head[i]
    ensures forall i :: 0 <= i < |foot| ==> '\n' !in foot[i]
  {
  }

  /** The version script reads back line by line as written: the header,
      one line per function name, the footer. */
  lemma LinkerScriptLinesRoundTrip(names: seq<string>)
    requires forall i :: 0 <= i < |names| ==> '\n' !in names[i]
    ensures Split(Join(LinkerScriptLines(names), "\n"), '\n') == LinkerScriptLines(names)
    ensures forall i :: 0 <= i < |names| ==> LinkerScriptLines(names)[4 + i] == "    " + names[i] + ";"
  {
    var lines := LinkerScriptLines(names);
    var exports := seq(|names|, i requires 0 <= i < |names| => "    " + names[i] + ";");
    var head: seq<string> := ["# Linker script for Linux.", "# Generated file; do not edit.", "{", "global:"];
    var foot: seq<string> := ["local:", "    *;", "};"];
    assert lines == head + exports + foot;
    forall i | 0 <= i < |exports|
      ensures '\n' !in exports[i]
    {
      assert exports[i] == "    " + names[i] + ";";
    }
    ScriptFrameUnbroken(head, foot);
    forall i | 0 <= i < |lines|
      ensures '\n' !in lines[i]
    {
      if i < 4 {
        assert lines[i] == head[i];
      } else if i < 4 + |names| {
        assert lines[i] == exports[i - 4];
      } else {
        assert lines[i] == foot[i - 4 - |names|];
      }
    }
    SplitJoin(lines, '\n');
  }
}
