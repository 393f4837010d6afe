/** Compound emission (nifxml_niflib.py lines 34-116): one header per
    compound that is neither natively implemented nor an `ns ` type, and a
    `.cpp` beside it unless the compound is a template. */
module Compounds {
  import opened Schema
  import opened Text
  import opened Sink

  /** The two `continue`s at the top of the loop. */
  predicate Skipped(x: Compound)
  {
    x.niflibtype || HasNsPrefix(x.name)
  }

  /** `n in ["Header", "Footer"]`: the file header and footer records get
      hand-written Read/Write/asString members. */
  predicate IsHeaderOrFooter(name: string)
  {
    name == "Header" || name == "Footer"
  }

  function IfndefLine(cname: string): string { "#ifndef _" + Upper(cname) + "_H_" }
  function DefineLine(cname: string): string { "#define _" + Upper(cname) + "_H_" }

  const NiObjectInclude := "#include \"../obj/NiObject.h\""

  function StructOpen(x: Compound): string
  {
    var hdr := "struct " + x.cname;
    (if x.template then "template <class T >\n" + hdr else hdr) + " {"
  }

  function CtorDecls(cname: string): seq<string>
  {
    ["/*! Default Constructor */", cname + "();", "/*! Default Destructor */", "~" + cname + "();"]
  }

  const ReadDecl := "void Read( istream& in, list<uint> & link_stack, unsigned int version, unsigned int user_version );"
  const WriteDecl := "void Write( ostream& out, map<NiObjectRef,uint> link_map, unsigned int version, unsigned int user_version ) const;"
  const AsStringDecl := "string asString( bool verbose = false ) const;"

  /** Lines 42-52: banner, include guard, includes and a blank line. */
  function HeaderPrologue(x: Compound): seq<string>
  {
    Copyright + GuardLines(x)
    + (if IsHeaderOrFooter(x.name) then [NiObjectInclude] else [])
    + [""]
  }

  /** Lines 43-48: the include guard and the two includes every header has. */
  function GuardLines(x: Compound): seq<string>
  {
    ["", IfndefLine(x.cname), DefineLine(x.cname), "", "#include \"../NIF_IO.h\"", x.includeH]
  }

  /** Lines 55-66: the description, the struct line and, unless a template,
      the constructor and destructor declarations. */
  function StructOpening(x: Compound, comment: string -> seq<string>): seq<string>
  {
    comment(x.description) + [StructOpen(x)] + (if x.template then [] else CtorDecls(x.cname))
  }

  /** Lines 69-80: the member declarations, the Header/Footer functions and the closing lines. */
  function StructClosing(x: Compound): seq<string>
  {
    x.declLines
    + (if IsHeaderOrFooter(x.name) then [ReadDecl, WriteDecl, AsStringDecl] else [])
    + ["};", "", "#endif"]
  }

  /** The header file of a compound, fragment by fragment (lines 42-80). */
  function CompoundHeader(x: Compound, comment: string -> seq<string>): seq<string>
  {
    HeaderPrologue(x) + StructOpening(x, comment) + StructClosing(x)
  }

  /** Where the `struct` line sits in the header. */
  function StructIndex(x: Compound, comment: string -> seq<string>): nat
  {
    9 + (if IsHeaderOrFooter(x.name) then 1 else 0) + |comment(x.description)|
  }

  function CtorDef(x: Compound): string
  {
    x.cname + "::" + x.cname + "()" + x.construct + " {};"
  }

  function DtorDef(x: Compound): string
  {
    x.cname + "::~" + x.cname + "()" + " {};"
  }

  /** The parameter lists of the three stream functions, after the class name. */
  const ReadSignature := "::Read( istream& in, list<uint> & link_stack, unsigned int version, unsigned int user_version ) {"
  const WriteSignature := "::Write( ostream& out, map<NiObjectRef,uint> link_map, unsigned int version, unsigned int user_version ) const {"
  const AsStringSignature := "::asString( bool verbose ) const {"

  function ReadHead(cname: string): string { "void " + cname + ReadSignature }
  function WriteHead(cname: string): string { "void " + cname + WriteSignature }
  function AsStringHead(cname: string): string { "string " + cname + AsStringSignature }

  /** A blank line, then a function head, its body and the closing brace. */
  function Definition(head: string, body: seq<string>): seq<string>
  {
    ["", head] + body + ["}"]
  }

  /** The Read, Write and asString definitions of Header and Footer (lines 105-116). */
  function HeaderFooterBodies(x: Compound): seq<string>
  {
    Definition(ReadHead(x.cname), x.streams.read)
    + Definition(WriteHead(x.cname), x.streams.write)
    + Definition(AsStringHead(x.cname), x.streams.out)
  }

  /** Lines 84-101: banner, includes, the optional constructor and the destructor. */
  function CppPrologue(x: Compound): seq<string>
  {
    Copyright + CppIncludeLines(x)
    + (if x.construct != "" then [CtorDef(x)] else [])
    + DtorLines(x)
  }

  function CppIncludeLines(x: Compound): seq<string> { ["", x.includeCpp, "", "//Constructor"] }
  function DtorLines(x: Compound): seq<string> { ["", "//Destructor", DtorDef(x)] }

  /** The implementation file of a non-template compound (lines 84-116). */
  function CompoundCpp(x: Compound): seq<string>
  {
    CppPrologue(x) + (if IsHeaderOrFooter(x.name) then HeaderFooterBodies(x) else [])
  }

  function HeaderPath(root: string, cname: string): string { root + "/gen/" + cname + ".h" }
  function CppPath(root: string, cname: string): string { root + "/gen/" + cname + ".cpp" }

  /** The files written for one compound that is not skipped. */
  datatype CompoundOutput = CompoundOutput(header: GeneratedFile, cpp: Option<GeneratedFile>)

  function CompoundOutputOf(root: string, x: Compound, comment: string -> seq<string>): Option<CompoundOutput>
  {
    if Skipped(x) then None
    else Some(CompoundOutput(
      GeneratedFile(HeaderPath(root, x.cname), CompoundHeader(x, comment)),
      if x.template then None else Some(GeneratedFile(CppPath(root, x.cname), CompoundCpp(x)))))
  }

  /** The outputs of the whole compound loop, in `compound_names` order. */
  function CompoundOutputs(root: string, cs: seq<Compound>, comment: string -> seq<string>): seq<CompoundOutput>
    decreases |cs|
  {
    if cs == [] then []
    else
      var last := CompoundOutputOf(root, cs[|cs| - 1], comment);
      CompoundOutputs(root, cs[..|cs| - 1], comment) + (if last.Some? then [last.value] else [])
  }

  /** The compounds that are not skipped, in order. */
  function Emitted(cs: seq<Compound>): (r: seq<Compound>)
    ensures forall k :: 0 <= k < |r| ==> !Skipped(r[k])
    decreases |cs|
  {
    if cs == [] then []
    else Emitted(cs[..|cs| - 1]) + (if Skipped(cs[|cs| - 1]) then [] else [cs[|cs| - 1]])
  }

  /** The two banner lines both files of a compound open with. */
  method EmitBanner(h: CFile)
    modifies h`lines
    ensures h.lines == old(h.lines) + Copyright
  {
    h.Code(Copyright[0]);
    h.Code(Copyright[1]);
  }

  /** Lines 43-48. */
  method EmitGuardLines(h: CFile, x: Compound)
    modifies h`lines
    ensures h.lines == old(h.lines) + GuardLines(x)
  {
    h.Code("");
    h.Code(IfndefLine(x.cname));
    h.Code(DefineLine(x.cname));
    h.Code("");
    h.Code("#include \"../NIF_IO.h\"");
    h.Code(x.includeH);
  }

  /** Lines 42-52. */
  method EmitHeaderPrologue(h: CFile, x: Compound)
    modifies h`lines
    ensures h.lines == old(h.lines) + HeaderPrologue(x)
  {
    ghost var start := h.lines;
    EmitBanner(h);
    EmitGuardLines(h, x);
    AppendAssoc(start, Copyright, GuardLines(x));
    ghost var niObject: seq<string> := [];
    if IsHeaderOrFooter(x.name) {
      h.Code(NiObjectInclude);
      niObject := [NiObjectInclude];
    }
    AppendAssoc(start, Copyright + GuardLines(x), niObject);
    h.Code("");
    AppendAssoc(start, Copyright + GuardLines(x) + niObject, [""]);
  }

  /** Lines 55-66. */
  method EmitStructOpening(h: CFile, x: Compound, comment: string -> seq<string>)
    modifies h`lines
    ensures h.lines == old(h.lines) + StructOpening(x, comment)
  {
    h.CodeAll(comment(x.description));
    var hdr := "struct " + x.cname;
    if x.template {
      hdr := "template <class T >\n" + hdr;
    }
    hdr := hdr + " {";
    h.Code(hdr);
    if !x.template {
      h.Code("/*! Default Constructor */");
      h.Code(x.cname + "();");
      h.Code("/*! Default Destructor */");
      h.Code("~" + x.cname + "();");
    }
  }

  /** Lines 69-80. */
  method EmitStructClosing(h: CFile, x: Compound)
    modifies h`lines
    ensures h.lines == old(h.lines) + StructClosing(x)
  {
    h.CodeAll(x.declLines);
    if IsHeaderOrFooter(x.name) {
      h.Code(ReadDecl);
      h.Code(WriteDecl);
      h.Code(AsStringDecl);
    }
    h.Code("};");
    h.Code("");
    h.Code("#endif");
  }

  /** Lines 41-80: the header of one compound. */
  method EmitCompoundHeader(h: CFile, x: Compound, comment: string -> seq<string>)
    modifies h`lines
    ensures h.lines == old(h.lines) + CompoundHeader(x, comment)
  {
    EmitHeaderPrologue(h, x);
    EmitStructOpening(h, x, comment);
    EmitStructClosing(h, x);
  }

  /** Lines 86-90. */
  method EmitCppIncludeLines(cpp: CFile, x: Compound)
    modifies cpp`lines
    ensures cpp.lines == old(cpp.lines) + CppIncludeLines(x)
  {
    cpp.Code("");
    cpp.Code(x.includeCpp);
    cpp.Code("");
    cpp.Code("//Constructor");
  }

  /** Lines 98-101. */
  method EmitDtorLines(cpp: CFile, x: Compound)
    modifies cpp`lines
    ensures cpp.lines == old(cpp.lines) + DtorLines(x)
  {
    cpp.Code("");
    cpp.Code("//Destructor");
    cpp.Code(DtorDef(x));
  }

  /** Lines 84-101. */
  method EmitCppPrologue(cpp: CFile, x: Compound)
    modifies cpp`lines
    ensures cpp.lines == old(cpp.lines) + CppPrologue(x)
  {
    ghost var start := cpp.lines;
    EmitBanner(cpp);
    EmitCppIncludeLines(cpp, x);
    AppendAssoc(start, Copyright, CppIncludeLines(x));
    ghost var ctor: seq<string> := [];
    var construct := x.construct;
    if construct != "" {
      cpp.Code(CtorDef(x));
      ctor := [CtorDef(x)];
    }
    AppendAssoc(start, Copyright + CppIncludeLines(x), ctor);
    EmitDtorLines(cpp, x);
    AppendAssoc(start, Copyright + CppIncludeLines(x) + ctor, DtorLines(x));
  }

  /** The pattern lines 105-108, 109-112 and 113-116 share: a blank line,
      the function head, the statements nifxml streams for it, and `}`. */
  method EmitDefinition(cpp: CFile, head: string, body: seq<string>)
    modifies cpp`lines
    ensures cpp.lines == old(cpp.lines) + Definition(head, body)
  {
    cpp.Code("");
    cpp.Code(head);
    cpp.CodeAll(body);
    cpp.Code("}");
  }

  /** Lines 104-116. */
  method EmitHeaderFooterBodies(cpp: CFile, x: Compound)
    modifies cpp`lines
    ensures cpp.lines == old(cpp.lines) + HeaderFooterBodies(x)
  {
    EmitDefinition(cpp, ReadHead(x.cname), x.streams.read);
    EmitDefinition(cpp, WriteHead(x.cname), x.streams.write);
    EmitDefinition(cpp, AsStringHead(x.cname), x.streams.out);
  }

  /** Lines 83-116: the implementation file of one non-template compound. */
  method EmitCompoundCpp(cpp: CFile, x: Compound)
    modifies cpp`lines
    ensures cpp.lines == old(cpp.lines) + CompoundCpp(x)
  {
    EmitCppPrologue(cpp, x);
    if IsHeaderOrFooter(x.name) {
      EmitHeaderFooterBodies(cpp, x);
    }
  }

  /** The compound loop (lines 34-116). */
  method GenerateCompounds(root: string, cs: seq<Compound>, comment: string -> seq<string>)
    returns (outs: seq<CompoundOutput>)
    ensures outs == CompoundOutputs(root, cs, comment)
  {
    outs := [];
    for i := 0 to |cs|
      invariant outs == CompoundOutputs(root, cs[..i], comment)
    {
      var x := cs[i];
      assert cs[..i + 1][..i] == cs[..i] && cs[..i + 1][i] == x;
      ghost var produced := CompoundOutputOf(root, x, comment);
      assert CompoundOutputs(root, cs[..i + 1], comment)
        == outs + (if produced.Some? then [produced.value] else []);
      if x.niflibtype { continue; }
      if |x.name| >= 3 && x.name[..3] == "ns " { continue; }
      var h := new CFile(root + "/gen/" + x.cname + ".h");
      EmitCompoundHeader(h, x, comment);
      assert h.lines == CompoundHeader(x, comment);
      var cpp: Option<GeneratedFile> := None;
      if !x.template {
        var c := new CFile(root + "/gen/" + x.cname + ".cpp");
        EmitCompoundCpp(c, x);
        assert c.lines == CompoundCpp(x);
        cpp := Some(c.Closed());
      }
      assert produced == Some(CompoundOutput(h.Closed(), cpp));
      outs := outs + [CompoundOutput(h.Closed(), cpp)];
    }
    assert cs[..|cs|] == cs;
  }
}

module CompoundProperties {
  import opened Schema
  import opened Text
  import opened Compounds

  predicate StartsWith(s: string, p: string)
  {
    |s| >= |p| && s[..|p|] == p
  }

  /** Lines 37-39 and 82: a natively implemented or `ns ` compound writes
      nothing; any other compound writes its header, and a `.cpp` exactly
      when it is not a template. */
  lemma FilesWrittenPerCompound(root: string, x: Compound, comment: string -> seq<string>)
    ensures CompoundOutputOf(root, x, comment).None? <==> (x.niflibtype || HasNsPrefix(x.name))
    ensures CompoundOutputOf(root, x, comment).Some? ==>
      var o := CompoundOutputOf(root, x, comment).value;
      o.header.path == root + "/gen/" + x.cname + ".h" &&
      (o.cpp.Some? <==> !x.template) &&
      (o.cpp.Some? ==> o.cpp.value.path == root + "/gen/" + x.cname + ".cpp")
  {
  }

  /** The compound loop writes one output per compound that is not skipped,
      in `compound_names` order, and nothing for the skipped ones. */
  lemma {:induction false} CompoundOutputsFollowOrder(root: string, cs: seq<Compound>, comment: string -> seq<string>)
    ensures |CompoundOutputs(root, cs, comment)| == |Emitted(cs)|
    ensures forall k :: 0 <= k < |Emitted(cs)| ==>
      CompoundOutputOf(root, Emitted(cs)[k], comment) == Some(CompoundOutputs(root, cs, comment)[k])
    decreases |cs|
  {
    if cs != [] {
      CompoundOutputsFollowOrder(root, cs[..|cs| - 1], comment);
    }
  }

  /** Lines 45-46 and 78-80: the guard macro is `_<CNAME>_H_` with the cname
      upper-cased, and the header closes the struct and the guard. */
  lemma HeaderGuardAndClose(x: Compound, comment: string -> seq<string>)
    ensures var h := CompoundHeader(x, comment);
      |h| >= 12 && h[..2] == Copyright &&
      h[3] == "#ifndef _" + Upper(x.cname) + "_H_" &&
      h[4] == "#define _" + Upper(x.cname) + "_H_" &&
      h[|h| - 3..] == ["};", "", "#endif"]
  {
  }

  /** Lines 56-66: the struct line carries the `template <class T >` prefix
      exactly for a template; a template has its member declarations right
      after it, any other compound first declares its constructor and destructor. */
  lemma StructLineAndConstructors(x: Compound, comment: string -> seq<string>)
    ensures var h := CompoundHeader(x, comment); var k := StructIndex(x, comment);
      k + 1 < |h| &&
      (StartsWith(h[k], "template <class T >\n") <==> x.template) &&
      (x.template ==>
        h[k] == "template <class T >\nstruct " + x.cname + " {" &&
        h[k + 1..k + 1 + |x.declLines|] == x.declLines) &&
      (!x.template ==>
        h[k] == "struct " + x.cname + " {" &&
        h[k + 1..k + 5] == ["/*! Default Constructor */", x.cname + "();", "/*! Default Destructor */", "~" + x.cname + "();"] &&
        h[k + 5..k + 5 + |x.declLines|] == x.declLines)
  {
    var h := CompoundHeader(x, comment);
    var k := StructIndex(x, comment);
    assert h[k] == StructOpen(x);
    if !x.template {
      assert h[k][0] == 's';
    }
  }

  /** Lines 50-51 and 72-75: only Header and Footer include NiObject.h, and
      only they declare Read, Write and asString, in that order, directly
      after the member declarations. */
  lemma HeaderFooterDeclarations(x: Compound, comment: string -> seq<string>)
    ensures var h := CompoundHeader(x, comment); var d := |x.declLines|;
      |h| >= d + 12 &&
      (h[8] == NiObjectInclude <==> IsHeaderOrFooter(x.name)) &&
      (IsHeaderOrFooter(x.name) ==>
        |h| >= d + 15 &&
        h[|h| - 6 - d..|h| - 6] == x.declLines &&
        h[|h| - 6..|h| - 3] == [ReadDecl, WriteDecl, AsStringDecl]) &&
      (!IsHeaderOrFooter(x.name) ==> h[|h| - 3 - d..|h| - 3] == x.declLines)
  {
    var h := CompoundHeader(x, comment);
    assert h == HeaderPrologue(x) + StructOpening(x, comment) + StructClosing(x);
  }

  /** Lines 92-101: the constructor definition is written exactly when
      code_construct() is non-empty, and the destructor definition always follows. */
  lemma ConstructorOnlyWithInitialiser(x: Compound)
    ensures var c := CompoundCpp(x); var n := if x.construct != "" then 1 else 0;
      |c| >= 9 + n &&
      c[5] == "//Constructor" &&
      (c[6] == x.cname + "::" + x.cname + "()" + x.construct + " {};" <==> x.construct != "") &&
      c[7 + n] == "//Destructor" &&
      c[8 + n] == x.cname + "::~" + x.cname + "() {};"
  {
    var c := CompoundCpp(x);
    assert c == CppPrologue(x) + (if IsHeaderOrFooter(x.name) then HeaderFooterBodies(x) else []);
    if x.construct == "" {
      assert c[6] == "";
    }
  }

  /** Lines 104-116: Header and Footer get Read, Write and asString
      definitions, in that order, each wrapped around what nifxml streams for
      that action; every other compound's file ends with the destructor. */
  lemma HeaderFooterDefinitions(x: Compound)
    ensures var c := CompoundCpp(x); var n := |CppPrologue(x)|;
      n <= |c| && c[n - 1] == DtorDef(x) &&
      (IsHeaderOrFooter(x.name) ==>
        c[n..] == ["", ReadHead(x.cname)] + x.streams.read + ["}"]
                + ["", WriteHead(x.cname)] + x.streams.write + ["}"]
                + ["", AsStringHead(x.cname)] + x.streams.out + ["}"]) &&
      (!IsHeaderOrFooter(x.name) ==> |c| == n)
  {
    var c := CompoundCpp(x);
    if IsHeaderOrFooter(x.name) {
      assert c[|CppPrologue(x)|..] == HeaderFooterBodies(x);
    }
  }
}
