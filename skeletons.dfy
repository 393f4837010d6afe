/** Bootstrap skeletons (nifxml_niflib.py lines 299-395): with `-b`, a
    hand-editable header and implementation file under `obj/` per block. The
    class derives from the block's `_PARENT` macro, its bodies expand the
    `obj_defines.h` macros, and each member with an accessor name gets an
    accessor declaration and a definition that returns a default value. */
module Bootstrap {
  import opened Schema
  import opened Text
  import opened Sink
  import opened Compounds

  /** The C++ type an accessor of `y` returns. */
  function ReturnType(y: Member): string
  {
    if !y.template then y.ctype
    else if y.ctype != "*" then y.ctype + "<" + y.ctemplate + " >"
    else y.ctemplate + " *"
  }

  /** What the skeleton accessor returns until someone writes it. */
  function DefaultValue(y: Member): string
  {
    if !y.template then y.ctype + "()"
    else if y.ctype != "*" then y.ctype + "<" + y.ctemplate + " >()"
    else "NULL"
  }

  /** Lines 337-343: the accessor declaration inside the class. */
  function AccessorDecl(cname: string, y: Member): string
  {
    if !y.template then y.ctype + " " + y.func + "() const;"
    else if y.ctype != "*" then y.ctype + "<" + y.ctemplate + " > " + cname + "::" + y.func + "() const;"
    else y.ctemplate + " * " + cname + "::" + y.func + "() const;"
  }

  /** Lines 387-394: the accessor definition. */
  function AccessorDef(cname: string, y: Member): string
  {
    if !y.template then y.ctype + " " + cname + "::" + y.func + "() const { return " + y.ctype + "(); }"
    else if y.ctype != "*" then
      y.ctype + "<" + y.ctemplate + " > " + cname + "::" + y.func + "() const { return " + y.ctype + "<" + y.ctemplate + " >(); }"
    else y.ctemplate + " * " + cname + "::" + y.func + "() const { return NULL; }"
  }

  /** The members that have an accessor name, in order. */
  function FuncMembers(ms: seq<Member>): (r: seq<Member>)
    ensures forall k :: 0 <= k < |r| ==> r[k].func != "" && r[k] in ms
    ensures forall i :: 0 <= i < |ms| && ms[i].func != "" ==> ms[i] in r
    decreases |ms|
  {
    if ms == [] then []
    else
      var last := ms[|ms| - 1];
      var r := FuncMembers(ms[..|ms| - 1]) + (if last.func != "" then [last] else []);
      assert forall i :: 0 <= i < |ms| - 1 ==> ms[i] == ms[..|ms| - 1][i];
      r
  }

  function AccessorDecls(cname: string, ms: seq<Member>): seq<string>
    decreases |ms|
  {
    if ms == [] then []
    else
      var last := ms[|ms| - 1];
      AccessorDecls(cname, ms[..|ms| - 1]) + (if last.func != "" then [AccessorDecl(cname, last)] else [])
  }

  function AccessorDefs(cname: string, ms: seq<Member>): seq<string>
    decreases |ms|
  {
    if ms == [] then []
    else
      var last := ms[|ms| - 1];
      AccessorDefs(cname, ms[..|ms| - 1]) + (if last.func != "" then [AccessorDef(cname, last)] else [])
  }

  function ForwardDecl(cname: string): string { "class " + cname + ";" }
  function RefTypedef(cname: string): string { "typedef Ref<" + cname + "> " + cname + "Ref;" }

  function ClassLine(x: Block): string { "class " + x.cname + " : public " + x.defineName + "_PARENT {" }

  /** Lines 306-310: the include guard and the block's own includes. */
  function SkeletonGuard(x: Block): seq<string>
  {
    ["", IfndefLine(x.cname), DefineLine(x.cname), "", x.includeH, ""]
  }

  /** Lines 311-314: the macro table include and the forward declarations. */
  function SkeletonForward(x: Block): seq<string>
  {
    ["#include \"gen/obj_defines.h\"", "", ForwardDecl(x.cname), RefTypedef(x.cname), ""]
  }

  /** Lines 304-320: banner, guard, includes, forward declarations and the description. */
  function SkeletonPrologue(x: Block, comment: string -> seq<string>): seq<string>
  {
    Copyright + SkeletonGuard(x) + SkeletonForward(x) + comment(x.cname + " - " + x.description) + [""]
  }

  const VirtualDecls: seq<string> := [
    "virtual void Read( istream& in, list<uint> & link_stack, unsigned int version, unsigned int user_version );",
    "virtual void Write( ostream& out, map<NiObjectRef,uint> link_map, unsigned int version, unsigned int user_version ) const;",
    "virtual string asString( bool verbose = false ) const;\n",
    "virtual void FixLinks( const vector<NiObjectRef> & objects, list<uint> & link_stack, unsigned int version, unsigned int user_version );",
    "virtual list<NiObjectRef> GetRefs() const;",
    "virtual const Type & GetType() const;"]

  /** Lines 321-333: the class line and the public interface. */
  function ClassOpening(x: Block): seq<string>
  {
    [ClassLine(x), "public:", x.cname + "();", "~" + x.cname + "();",
     "//Run-Time Type Information", "static const Type TYPE;"]
    + VirtualDecls + ["protected:"]
  }

  /** Lines 344-347. */
  function ClassClosing(x: Block): seq<string>
  {
    [x.defineName + "_MEMBERS", "};", "", "#endif"]
  }

  /** The skeleton header of a block (lines 304-347). */
  function SkeletonHeader(x: Block, comment: string -> seq<string>): seq<string>
  {
    SkeletonPrologue(x, comment) + ClassOpening(x) + AccessorDecls(x.cname, x.members) + ClassClosing(x)
  }

  function TypeConstantLine(x: Block): string
  {
    "const Type " + x.cname + "::TYPE(\"" + x.cname + "\", &" + x.defineName + "_PARENT::TYPE );"
  }

  function SkeletonCtor(x: Block): string { x.cname + "::" + x.cname + "() " + x.defineName + "_CONSTRUCT {}" }
  function SkeletonDtor(x: Block): string { x.cname + "::" + "~" + x.cname + "() {}" }

  /** Lines 353-357: includes and the TYPE constant. */
  function TypeConstant(x: Block): seq<string>
  {
    ["", x.includeCpp, "", "//Definition of TYPE constant", TypeConstantLine(x), ""]
  }

  /** Lines 358-361: the constructor expands the `_CONSTRUCT` macro. */
  function Structors(x: Block): seq<string>
  {
    [SkeletonCtor(x), "", SkeletonDtor(x), ""]
  }

  /** Lines 351-361. */
  function SkeletonCppPrologue(x: Block): seq<string>
  {
    Copyright + TypeConstant(x) + Structors(x)
  }

  const FixLinksSignature := "::FixLinks( const vector<NiObjectRef> & objects, list<uint> & link_stack, unsigned int version, unsigned int user_version ) {"

  function FixLinksHead(cname: string): string { "void " + cname + FixLinksSignature }

  function GetRefsHead(cname: string): string { "list<NiObjectRef> " + cname + "::GetRefs() const {" }
  function GetTypeHead(cname: string): string { "const Type & " + cname + "::GetType() const {" }

  function GetTypeDef(cname: string): seq<string>
  {
    [GetTypeHead(cname), "return TYPE;", "};", ""]
  }

  /** A member function whose body is one `obj_defines.h` macro. */
  function MacroDef(head: string, macro: string): seq<string>
  {
    [head, macro, "}", ""]
  }

  /** Lines 362-373: Read, Write and asString expand the stream macros. */
  function StreamDefs(x: Block): seq<string>
  {
    MacroDef(ReadHead(x.cname), x.defineName + "_READ")
    + MacroDef(WriteHead(x.cname), x.defineName + "_WRITE")
    + MacroDef(AsStringHead(x.cname), x.defineName + "_STRING")
  }

  /** Lines 374-385: FixLinks and GetRefs expand the link macros; GetType returns TYPE. */
  function LinkDefs(x: Block): seq<string>
  {
    MacroDef(FixLinksHead(x.cname), x.defineName + "_FIXLINKS")
    + MacroDef(GetRefsHead(x.cname), x.defineName + "_GETREFS")
    + GetTypeDef(x.cname)
  }

  /** Lines 362-385. */
  function ActionDefs(x: Block): seq<string>
  {
    StreamDefs(x) + LinkDefs(x)
  }

  /** The skeleton implementation file of a block (lines 350-394). */
  function SkeletonCpp(x: Block): seq<string>
  {
    SkeletonCppPrologue(x) + ActionDefs(x) + AccessorDefs(x.cname, x.members)
  }

  datatype Skeleton = Skeleton(header: GeneratedFile, cpp: GeneratedFile)

  function SkeletonOf(root: string, x: Block, comment: string -> seq<string>): Skeleton
  {
    Skeleton(GeneratedFile(root + "/obj/" + x.cname + ".h", SkeletonHeader(x, comment)),
             GeneratedFile(root + "/obj/" + x.cname + ".cpp", SkeletonCpp(x)))
  }

  /** One skeleton per block, in `block_names` order. */
  function Skeletons(root: string, bs: seq<Block>, comment: string -> seq<string>): seq<Skeleton>
    decreases |bs|
  {
    if bs == [] then []
    else Skeletons(root, bs[..|bs| - 1], comment) + [SkeletonOf(root, bs[|bs| - 1], comment)]
  }

  /** Lines 306-310. */
  method EmitSkeletonGuard(out: CFile, x: Block)
    modifies out`lines
    ensures out.lines == old(out.lines) + SkeletonGuard(x)
  {
    out.Code("");
    out.Code(IfndefLine(x.cname));
    out.Code(DefineLine(x.cname));
    out.Code("");
    out.Code(x.includeH);
    out.Code("");
  }

  /** Lines 311-314. */
  method EmitSkeletonForward(out: CFile, x: Block)
    modifies out`lines
    ensures out.lines == old(out.lines) + SkeletonForward(x)
  {
    out.Code("#include \"gen/obj_defines.h\"");
    out.Code("");
    out.Code(ForwardDecl(x.cname));
    out.Code(RefTypedef(x.cname));
    out.Code("");
  }

  /** Lines 304-320. */
  method EmitSkeletonPrologue(out: CFile, x: Block, comment: string -> seq<string>)
    modifies out`lines
    ensures out.lines == old(out.lines) + SkeletonPrologue(x, comment)
  {
    out.CodeAll(Copyright);
    EmitSkeletonGuard(out, x);
    EmitSkeletonForward(out, x);
    out.CodeAll(comment(x.cname + " - " + x.description));
    out.Code("");
  }

  /** Lines 321-333. */
  method EmitClassOpening(out: CFile, x: Block)
    modifies out`lines
    ensures out.lines == old(out.lines) + ClassOpening(x)
  {
    out.Code(ClassLine(x));
    out.Code("public:");
    out.Code(x.cname + "();");
    out.Code("~" + x.cname + "();");
    out.Code("//Run-Time Type Information");
    out.Code("static const Type TYPE;");
    out.CodeAll(VirtualDecls);
    out.Code("protected:");
  }

  /** Lines 334-343: a declaration per member that has an accessor name. */
  method EmitAccessorDecls(out: CFile, cname: string, ms: seq<Member>)
    modifies out`lines
    ensures out.lines == old(out.lines) + AccessorDecls(cname, ms)
  {
    ghost var start := out.lines;
    for i := 0 to |ms|
      invariant out.lines == start + AccessorDecls(cname, ms[..i])
    {
      var y := ms[i];
      assert ms[..i + 1][..i] == ms[..i] && ms[..i + 1][i] == y;
      if y.func != "" {
        out.Code(AccessorDecl(cname, y));
      }
    }
    assert ms[..|ms|] == ms;
  }

  /** Lines 344-347. */
  method EmitClassClosing(out: CFile, x: Block)
    modifies out`lines
    ensures out.lines == old(out.lines) + ClassClosing(x)
  {
    out.Code(x.defineName + "_MEMBERS");
    out.Code("};");
    out.Code("");
    out.Code("#endif");
  }

  /** Lines 303-348: the skeleton header of one block. */
  method EmitSkeletonHeader(out: CFile, x: Block, comment: string -> seq<string>)
    modifies out`lines
    ensures out.lines == old(out.lines) + SkeletonHeader(x, comment)
  {
    ghost var start := out.lines;
    ghost var pro, opening := SkeletonPrologue(x, comment), ClassOpening(x);
    ghost var decls := AccessorDecls(x.cname, x.members);
    EmitSkeletonPrologue(out, x, comment);
    EmitClassOpening(out, x);
    AppendAssoc(start, pro, opening);
    EmitAccessorDecls(out, x.cname, x.members);
    AppendAssoc(start, pro + opening, decls);
    EmitClassClosing(out, x);
    AppendAssoc(start, pro + opening + decls, ClassClosing(x));
  }

  /** Lines 353-357. */
  method EmitTypeConstant(out: CFile, x: Block)
    modifies out`lines
    ensures out.lines == old(out.lines) + TypeConstant(x)
  {
    out.Code("");
    out.Code(x.includeCpp);
    out.Code("");
    out.Code("//Definition of TYPE constant");
    out.Code(TypeConstantLine(x));
    out.Code("");
  }

  /** Lines 358-361. */
  method EmitStructors(out: CFile, x: Block)
    modifies out`lines
    ensures out.lines == old(out.lines) + Structors(x)
  {
    out.Code(SkeletonCtor(x));
    out.Code("");
    out.Code(SkeletonDtor(x));
    out.Code("");
  }

  /** Lines 351-361. */
  method EmitSkeletonCppPrologue(out: CFile, x: Block)
    modifies out`lines
    ensures out.lines == old(out.lines) + SkeletonCppPrologue(x)
  {
    out.CodeAll(Copyright);
    EmitTypeConstant(out, x);
    EmitStructors(out, x);
  }

  method EmitMacroDef(out: CFile, head: string, macro: string)
    modifies out`lines
    ensures out.lines == old(out.lines) + MacroDef(head, macro)
  {
    out.Code(head);
    out.Code(macro);
    out.Code("}");
    out.Code("");
  }

  /** Lines 362-373. */
  method EmitStreamDefs(out: CFile, x: Block)
    modifies out`lines
    ensures out.lines == old(out.lines) + StreamDefs(x)
  {
    EmitMacroDef(out, ReadHead(x.cname), x.defineName + "_READ");
    EmitMacroDef(out, WriteHead(x.cname), x.defineName + "_WRITE");
    EmitMacroDef(out, AsStringHead(x.cname), x.defineName + "_STRING");
  }

  /** Lines 374-385. */
  method EmitLinkDefs(out: CFile, x: Block)
    modifies out`lines
    ensures out.lines == old(out.lines) + LinkDefs(x)
  {
    EmitMacroDef(out, FixLinksHead(x.cname), x.defineName + "_FIXLINKS");
    EmitMacroDef(out, GetRefsHead(x.cname), x.defineName + "_GETREFS");
    EmitGetTypeDef(out, x.cname);
  }

  /** Lines 362-385. */
  method EmitActionDefs(out: CFile, x: Block)
    modifies out`lines
    ensures out.lines == old(out.lines) + ActionDefs(x)
  {
    ghost var start := out.lines;
    EmitStreamDefs(out, x);
    EmitLinkDefs(out, x);
    AppendAssoc(start, StreamDefs(x), LinkDefs(x));
  }

  /** Lines 382-385. */
  method EmitGetTypeDef(out: CFile, cname: string)
    modifies out`lines
    ensures out.lines == old(out.lines) + GetTypeDef(cname)
  {
    out.Code(GetTypeHead(cname));
    out.Code("return TYPE;");
    out.Code("};");
    out.Code("");
  }

  /** Lines 386-394: a definition per member that has an accessor name. */
  method EmitAccessorDefs(out: CFile, cname: string, ms: seq<Member>)
    modifies out`lines
    ensures out.lines == old(out.lines) + AccessorDefs(cname, ms)
  {
    ghost var start := out.lines;
    for i := 0 to |ms|
      invariant out.lines == start + AccessorDefs(cname, ms[..i])
    {
      var y := ms[i];
      assert ms[..i + 1][..i] == ms[..i] && ms[..i + 1][i] == y;
      if y.func != "" {
        out.Code(AccessorDef(cname, y));
      }
    }
    assert ms[..|ms|] == ms;
  }

  /** Lines 350-395: the skeleton implementation file of one block. */
  method EmitSkeletonCpp(out: CFile, x: Block)
    modifies out`lines
    ensures out.lines == old(out.lines) + SkeletonCpp(x)
  {
    ghost var start := out.lines;
    EmitSkeletonCppPrologue(out, x);
    EmitActionDefs(out, x);
    AppendAssoc(start, SkeletonCppPrologue(x), ActionDefs(x));
    EmitAccessorDefs(out, x.cname, x.members);
    AppendAssoc(start, SkeletonCppPrologue(x) + ActionDefs(x), AccessorDefs(x.cname, x.members));
  }

  /** Lines 305-348: the skeleton header of one block, as a file. */
  method WriteSkeletonHeader(root: string, x: Block, comment: string -> seq<string>) returns (f: GeneratedFile)
    ensures f == SkeletonOf(root, x, comment).header
  {
    var out := new CFile(root + "/obj/" + x.cname + ".h");
    EmitSkeletonHeader(out, x, comment);
    AppendToEmpty(SkeletonHeader(x, comment));
    f := out.Closed();
  }

  /** Lines 350-395: the skeleton implementation file of one block, as a file. */
  method WriteSkeletonCpp(root: string, x: Block, comment: string -> seq<string>) returns (f: GeneratedFile)
    ensures f == SkeletonOf(root, x, comment).cpp
  {
    var out := new CFile(root + "/obj/" + x.cname + ".cpp");
    EmitSkeletonCpp(out, x);
    AppendToEmpty(SkeletonCpp(x));
    f := out.Closed();
  }

  /** The loop of lines 301-395: a skeleton for every block, in `block_names` order. */
  method GenerateSkeletons(root: string, bs: seq<Block>, comment: string -> seq<string>)
    returns (outs: seq<Skeleton>)
    ensures outs == Skeletons(root, bs, comment)
  {
    outs := [];
    for i := 0 to |bs|
      invariant outs == Skeletons(root, bs[..i], comment)
    {
      assert bs[..i + 1][..i] == bs[..i] && bs[..i + 1][i] == bs[i];
      var header := WriteSkeletonHeader(root, bs[i], comment);
      var cpp := WriteSkeletonCpp(root, bs[i], comment);
      outs := outs + [Skeleton(header, cpp)];
    }
    assert bs[..|bs|] == bs;
  }
}

module BootstrapProperties {
  import opened Schema
  import opened Text
  import opened Compounds
  import opened Bootstrap

  /** Lines 387-394: whichever of the three shapes, the definition returns
      the accessor's type and its body returns the default value. */
  lemma AccessorDefShape(cname: string, y: Member)
    ensures AccessorDef(cname, y) == ReturnType(y) + " " + cname + "::" + y.func + "() const { return " + DefaultValue(y) + "; }"
  {
    if !y.template {
      PlainDefShape(cname, y);
    } else if y.ctype != "*" {
      TemplateDefShape(cname, y);
    } else {
      assert AccessorDef(cname, y) == ReturnType(y) + " " + cname + "::" + y.func + "() const { return " + "NULL; }";
    }
  }

  lemma PlainDefShape(cname: string, y: Member)
    requires !y.template
    ensures AccessorDef(cname, y) == ReturnType(y) + " " + cname + "::" + y.func + "() const { return " + DefaultValue(y) + "; }"
  {
    var p := y.ctype + " " + cname + "::" + y.func + "() const { return ";
    assert AccessorDef(cname, y) == p + y.ctype + "(); }";
    ValueReturn(p, y.ctype, "()", "; }");
  }

  lemma TemplateDefShape(cname: string, y: Member)
    requires y.template && y.ctype != "*"
    ensures AccessorDef(cname, y) == ReturnType(y) + " " + cname + "::" + y.func + "() const { return " + DefaultValue(y) + "; }"
  {
    var t := y.ctype + "<" + y.ctemplate;
    var p := t + " >" + " " + cname + "::" + y.func + "() const { return ";
    assert AccessorDef(cname, y) == p + t + " >(); }";
    ValueReturn(p, t, " >()", "; }");
  }

  /** Regrouping for the two value-returning shapes. */
  lemma ValueReturn(p: string, t: string, init: string, close: string)
    ensures p + (t + init) + close == p + t + (init + close)
  {
    AppendAssoc(p, t, init);
    AppendAssoc(p + t, init, close);
  }

  /** Lines 337-343: the declaration has the definition's return type and
      name; a template member's declaration also carries the class qualification. */
  lemma AccessorDeclShape(cname: string, y: Member)
    ensures AccessorDecl(cname, y) == ReturnType(y) + " " + (if y.template then cname + "::" else "") + y.func + "() const;"
  {
    if y.template && y.ctype != "*" {
      assert " > " == " >" + " ";
    } else if y.template {
      assert " * " == " *" + " ";
    }
  }

  /** Lines 389-394: the default value is a value-initialised instance of the
      return type, except for a template member whose type is `*`, which
      returns NULL. */
  lemma DefaultValueShape(y: Member)
    ensures DefaultValue(y) == "NULL" <==> y.template && y.ctype == "*"
    ensures !(y.template && y.ctype == "*") ==> DefaultValue(y) == ReturnType(y) + "()"
  {
    if !(y.template && y.ctype == "*") {
      var d := DefaultValue(y);
      assert d[|d| - 1] == ')';
      var n := "NULL";
      assert n[3] == 'L';
    }
  }

  /** Lines 334-343 and 386-394: a declaration and a definition for each
      member with an accessor name, in member order, and none for the others. */
  lemma {:induction false} AccessorsFollowFuncMembers(cname: string, ms: seq<Member>)
    ensures |AccessorDecls(cname, ms)| == |AccessorDefs(cname, ms)| == |FuncMembers(ms)|
    ensures forall k :: 0 <= k < |FuncMembers(ms)| ==>
      AccessorDecls(cname, ms)[k] == AccessorDecl(cname, FuncMembers(ms)[k]) &&
      AccessorDefs(cname, ms)[k] == AccessorDef(cname, FuncMembers(ms)[k])
  {
    DeclsFollowFuncMembers(cname, ms);
    DefsFollowFuncMembers(cname, ms);
  }

  lemma {:induction false} DeclsFollowFuncMembers(cname: string, ms: seq<Member>)
    ensures |AccessorDecls(cname, ms)| == |FuncMembers(ms)|
    ensures forall k :: 0 <= k < |FuncMembers(ms)| ==> AccessorDecls(cname, ms)[k] == AccessorDecl(cname, FuncMembers(ms)[k])
    decreases |ms|
  {
    if ms != [] {
      var init, last := ms[..|ms| - 1], ms[|ms| - 1];
      DeclsFollowFuncMembers(cname, init);
      assert FuncMembers(ms) == FuncMembers(init) + (if last.func != "" then [last] else []);
      assert AccessorDecls(cname, ms) == AccessorDecls(cname, init) + (if last.func != "" then [AccessorDecl(cname, last)] else []);
    }
  }

  lemma {:induction false} DefsFollowFuncMembers(cname: string, ms: seq<Member>)
    ensures |AccessorDefs(cname, ms)| == |FuncMembers(ms)|
    ensures forall k :: 0 <= k < |FuncMembers(ms)| ==> AccessorDefs(cname, ms)[k] == AccessorDef(cname, FuncMembers(ms)[k])
    decreases |ms|
  {
    if ms != [] {
      var init, last := ms[..|ms| - 1], ms[|ms| - 1];
      DefsFollowFuncMembers(cname, init);
      assert FuncMembers(ms) == FuncMembers(init) + (if last.func != "" then [last] else []);
      assert AccessorDefs(cname, ms) == AccessorDefs(cname, init) + (if last.func != "" then [AccessorDef(cname, last)] else []);
    }
  }

  /** Lines 304-333: the banner and include guard open the header; after
      the description the class derives from the block's `_PARENT` macro and
      the public interface ends with `protected:`. */
  lemma SkeletonHeaderFixedPart(x: Block, comment: string -> seq<string>)
    ensures var h := SkeletonPrologue(x, comment) + ClassOpening(x);
      var p := 14 + |comment(x.cname + " - " + x.description)|;
      |h| == p + 13 &&
      h[..2] == Copyright &&
      h[3] == "#ifndef _" + Upper(x.cname) + "_H_" &&
      h[p] == "class " + x.cname + " : public " + x.defineName + "_PARENT {" &&
      h[p + 12] == "protected:"
  {
    var pro := SkeletonPrologue(x, comment);
    assert pro == Copyright + SkeletonGuard(x) + SkeletonForward(x) + comment(x.cname + " - " + x.description) + [""];
    assert pro[3] == IfndefLine(x.cname);
  }

  /** Lines 334-347: between `protected:` and the `_MEMBERS` macro the
      header declares exactly the accessors of the members that have an
      accessor name, in order, and then closes the class and the guard. */
  lemma SkeletonHeaderAccessors(x: Block, comment: string -> seq<string>)
    ensures var h := SkeletonHeader(x, comment); var q := 27 + |comment(x.cname + " - " + x.description)|;
      var fs := FuncMembers(x.members);
      |h| == q + |fs| + 4 &&
      (forall k :: 0 <= k < |fs| ==> h[q + k] == AccessorDecl(x.cname, fs[k])) &&
      h[q + |fs|..] == [x.defineName + "_MEMBERS", "};", "", "#endif"]
  {
    AccessorsFollowFuncMembers(x.cname, x.members);
    var pre := SkeletonPrologue(x, comment) + ClassOpening(x);
    assert |pre| == 27 + |comment(x.cname + " - " + x.description)| by {
      assert |SkeletonPrologue(x, comment)| == 14 + |comment(x.cname + " - " + x.description)|;
    }
    var ds := AccessorDecls(x.cname, x.members);
    var h := pre + ds + ClassClosing(x);
    assert SkeletonHeader(x, comment) == h;
    assert forall k :: 0 <= k < |ds| ==> h[|pre| + k] == ds[k];
    assert h[|pre| + |ds|..] == ClassClosing(x);
  }

  /** Lines 351-385: the TYPE constant names the class and its parent's
      TYPE; the constructor expands `_CONSTRUCT`; Read, Write, asString,
      FixLinks and GetRefs expand their macros, in that order; GetType
      returns TYPE. */
  lemma SkeletonCppFixedPart(x: Block)
    ensures var c := SkeletonCppPrologue(x) + ActionDefs(x); var d := x.defineName;
      |c| == 36 &&
      c[..2] == Copyright &&
      c[6] == "const Type " + x.cname + "::TYPE(\"" + x.cname + "\", &" + d + "_PARENT::TYPE );" &&
      c[8] == x.cname + "::" + x.cname + "() " + d + "_CONSTRUCT {}" &&
      c[12] == ReadHead(x.cname) && c[13] == d + "_READ" &&
      c[16] == WriteHead(x.cname) && c[17] == d + "_WRITE" &&
      c[20] == AsStringHead(x.cname) && c[21] == d + "_STRING" &&
      c[24] == FixLinksHead(x.cname) && c[25] == d + "_FIXLINKS" &&
      c[28] == GetRefsHead(x.cname) && c[29] == d + "_GETREFS" &&
      c[32..] == [GetTypeHead(x.cname), "return TYPE;", "};", ""]
  {
    var pro, sd, ld := SkeletonCppPrologue(x), StreamDefs(x), LinkDefs(x);
    assert |pro| == 12 && |sd| == 12 && |ld| == 12;
    AppendAssoc(pro, sd, ld);
    var c := pro + sd + ld;
    assert c[12..24] == sd;
    assert c[24..] == ld;
  }

  /** Lines 350-394: after the fixed part, the implementation file holds
      exactly the accessor definitions of the members that have an accessor
      name, in order. */
  lemma SkeletonCppAccessors(x: Block)
    ensures var c := SkeletonCpp(x); var fs := FuncMembers(x.members);
      |c| == 36 + |fs| &&
      (forall k :: 0 <= k < |fs| ==> c[36 + k] == AccessorDef(x.cname, fs[k]))
  {
    AccessorsFollowFuncMembers(x.cname, x.members);
    SkeletonCppFixedPart(x);
    var pre := SkeletonCppPrologue(x) + ActionDefs(x);
    var ds := AccessorDefs(x.cname, x.members);
    assert SkeletonCpp(x) == pre + ds;
    assert forall k :: 0 <= k < |ds| ==> (pre + ds)[36 + k] == ds[k];
  }

  /** Lines 301-305 and 350: one header and one implementation file per
      block, ancestors included, at `obj/<cname>.h` and `obj/<cname>.cpp`. */
  lemma {:induction false} SkeletonsPerBlock(root: string, bs: seq<Block>, comment: string -> seq<string>)
    ensures |Skeletons(root, bs, comment)| == |bs|
    ensures forall k :: 0 <= k < |bs| ==>
      Skeletons(root, bs, comment)[k] == SkeletonOf(root, bs[k], comment) &&
      Skeletons(root, bs, comment)[k].header.path == root + "/obj/" + bs[k].cname + ".h" &&
      Skeletons(root, bs, comment)[k].cpp.path == root + "/obj/" + bs[k].cname + ".cpp"
    decreases |bs|
  {
    if bs != [] {
      SkeletonsPerBlock(root, bs[..|bs| - 1], comment);
    }
  }
}
