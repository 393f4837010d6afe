/** The factory registry, obj_factories.cpp (nifxml_niflib.py lines
    199-219): a creation function per concrete block and a registration of
    each in `global_block_map`, keyed by the block's cname. Ancestor blocks
    are never instantiated from a file and get neither. */
module Factories {
  import opened Schema
  import opened Text
  import opened Sink

  function IncludeLine(cname: string): string { "#include \"../obj/" + cname + ".h\"" }
  function CreateLine(cname: string): string { "NiObject * Create" + cname + "() { return new " + cname + "; }" }
  function RegisterLine(cname: string): string { "global_block_map[\"" + cname + "\"] = Create" + cname + ";" }

  /** The blocks that are not ancestors, in `block_names` order. */
  function Concrete(bs: seq<Block>): (r: seq<Block>)
    ensures |r| <= |bs|
    ensures forall k :: 0 <= k < |r| ==> !r[k].isAncestor && r[k] in bs
    ensures forall i :: 0 <= i < |bs| && !bs[i].isAncestor ==> bs[i] in r
    decreases |bs|
  {
    if bs == [] then []
    else
      var last := bs[|bs| - 1];
      var r := Concrete(bs[..|bs| - 1]) + (if last.isAncestor then [] else [last]);
      assert forall i :: 0 <= i < |bs| - 1 ==> bs[i] == bs[..|bs| - 1][i];
      r
  }

  /** The cnames of the concrete blocks, in order. */
  function ConcreteNames(bs: seq<Block>): seq<string>
    decreases |bs|
  {
    if bs == [] then []
    else
      var last := bs[|bs| - 1];
      ConcreteNames(bs[..|bs| - 1]) + (if last.isAncestor then [] else [last.cname])
  }

  /** Lines 207-211: an include and a creation function per concrete block. */
  function FactoryDefs(bs: seq<Block>): seq<string>
    decreases |bs|
  {
    if bs == [] then []
    else
      var last := bs[|bs| - 1];
      FactoryDefs(bs[..|bs| - 1]) + (if last.isAncestor then [] else [IncludeLine(last.cname), CreateLine(last.cname)])
  }

  /** Lines 215-218: a registration per concrete block. */
  function Registrations(bs: seq<Block>): seq<string>
    decreases |bs|
  {
    if bs == [] then []
    else
      var last := bs[|bs| - 1];
      Registrations(bs[..|bs| - 1]) + (if last.isAncestor then [] else [RegisterLine(last.cname)])
  }

  const FactoryPreamble: seq<string> := Copyright + ["",
    "#include \"../obj/NiObject.h\"",
    "typedef NiObject*(*blk_factory_func)();",
    "extern map<string, blk_factory_func> global_block_map;",
    ""]

  const RegisterOpen: seq<string> := ["",
    "//This function registers the factory functions with global_block_map which is used by CreateBlock",
    "void RegisterBlockFactories() {"]

  function FactoryPath(root: string): string { root + "/gen/obj_factories.cpp" }

  /** The whole of obj_factories.cpp. */
  function FactoryFile(bs: seq<Block>): seq<string>
  {
    FactoryPreamble + FactoryDefs(bs) + RegisterOpen + Registrations(bs) + ["}"]
  }

  /** Lines 207-211. */
  method EmitFactoryDefs(f: CFile, bs: seq<Block>)
    modifies f`lines
    ensures f.lines == old(f.lines) + FactoryDefs(bs)
  {
    ghost var start := f.lines;
    for i := 0 to |bs|
      invariant f.lines == start + FactoryDefs(bs[..i])
    {
      var x := bs[i];
      assert bs[..i + 1][..i] == bs[..i] && bs[..i + 1][i] == x;
      if !x.isAncestor {
        f.Code(IncludeLine(x.cname));
        f.Code(CreateLine(x.cname));
      }
    }
    assert bs[..|bs|] == bs;
  }

  /** Lines 214-219. */
  method EmitRegistrations(f: CFile, bs: seq<Block>)
    modifies f`lines
    ensures f.lines == old(f.lines) + Registrations(bs)
  {
    ghost var start := f.lines;
    for i := 0 to |bs|
      invariant f.lines == start + Registrations(bs[..i])
    {
      var x := bs[i];
      assert bs[..i + 1][..i] == bs[..i] && bs[..i + 1][i] == x;
      if !x.isAncestor {
        f.Code(RegisterLine(x.cname));
      }
    }
    assert bs[..|bs|] == bs;
  }

  /** Lines 199-219: obj_factories.cpp as a whole. */
  method GenerateFactories(root: string, bs: seq<Block>) returns (file: GeneratedFile)
    ensures file == GeneratedFile(FactoryPath(root), FactoryFile(bs))
  {
    var f := new CFile(root + "/gen/obj_factories.cpp");
    f.CodeAll(FactoryPreamble);
    EmitFactoryDefs(f, bs);
    f.CodeAll(RegisterOpen);
    EmitRegistrations(f, bs);
    f.Code("}");
    file := f.Closed();
  }

  /** The creation functions and the registrations both follow the concrete
      blocks in `block_names` order: two lines (include, creation function)
      and one registration per concrete block. */
  lemma {:induction false} FactoriesFollowConcrete(bs: seq<Block>)
    ensures |FactoryDefs(bs)| == 2 * |Concrete(bs)|
    ensures |Registrations(bs)| == |Concrete(bs)|
    ensures forall k :: 0 <= k < |Concrete(bs)| ==>
      FactoryDefs(bs)[2 * k] == IncludeLine(Concrete(bs)[k].cname) &&
      FactoryDefs(bs)[2 * k + 1] == CreateLine(Concrete(bs)[k].cname) &&
      Registrations(bs)[k] == RegisterLine(Concrete(bs)[k].cname)
    decreases |bs|
  {
    if bs != [] {
      FactoriesFollowConcrete(bs[..|bs| - 1]);
    }
  }

  /** `p + c + q + c + r` determines `c`. */
  lemma TwiceInfixInjective(p: string, q: string, r: string, c1: string, c2: string)
    requires p + c1 + q + c1 + r == p + c2 + q + c2 + r
    ensures c1 == c2
  {
    var s1, s2 := p + c1 + q + c1 + r, p + c2 + q + c2 + r;
    assert |s1| == |p| + 2 * |c1| + |q| + |r|;
    assert |c1| == |c2|;
    assert c1 == s1[|p|..|p| + |c1|];
    assert c2 == s2[|p|..|p| + |c2|];
  }

  lemma CreateLineInjective(c1: string, c2: string)
    requires CreateLine(c1) == CreateLine(c2)
    ensures c1 == c2
  {
    TwiceInfixInjective("NiObject * Create", "() { return new ", "; }", c1, c2);
  }

  lemma RegisterLineInjective(c1: string, c2: string)
    requires RegisterLine(c1) == RegisterLine(c2)
    ensures c1 == c2
  {
    TwiceInfixInjective("global_block_map[\"", "\"] = Create", ";", c1, c2);
  }

  lemma GeneratedLineStarts(c: string)
    ensures |IncludeLine(c)| > 0 && IncludeLine(c)[0] == '#'
    ensures |CreateLine(c)| > 0 && CreateLine(c)[0] == 'N'
    ensures |RegisterLine(c)| > 0 && RegisterLine(c)[0] == 'g'
  {
    var inc, create, register := "#include \"../obj/", "NiObject * Create", "global_block_map[\"";
    assert inc[0] == '#' && create[0] == 'N' && register[0] == 'g';
    assert IncludeLine(c) == inc + (c + ".h\"");
    assert CreateLine(c) == create + (c + "() { return new " + c + "; }");
    assert RegisterLine(c) == register + (c + "\"] = Create" + c + ";");
  }

  /** The include of `c` and the creation function of `c` are each written
      as often as `c` is the cname of a concrete block. */
  lemma {:induction false} DefsFollowConcreteNames(bs: seq<Block>, c: string)
    ensures Count(FactoryDefs(bs), IncludeLine(c)) == Count(ConcreteNames(bs), c)
    ensures Count(FactoryDefs(bs), CreateLine(c)) == Count(ConcreteNames(bs), c)
    decreases |bs|
  {
    if bs != [] {
      var init, last := bs[..|bs| - 1], bs[|bs| - 1];
      DefsFollowConcreteNames(init, c);
      var tail := if last.isAncestor then [] else [IncludeLine(last.cname), CreateLine(last.cname)];
      var names := if last.isAncestor then [] else [last.cname];
      CountAppend(FactoryDefs(init), tail, IncludeLine(c));
      CountAppend(FactoryDefs(init), tail, CreateLine(c));
      CountAppend(ConcreteNames(init), names, c);
      if !last.isAncestor {
        GeneratedLineStarts(last.cname);
        GeneratedLineStarts(c);
        DifferentFirst(IncludeLine(c), CreateLine(last.cname));
        DifferentFirst(IncludeLine(last.cname), CreateLine(c));
        assert tail == [IncludeLine(last.cname)] + [CreateLine(last.cname)];
        CountAppend([IncludeLine(last.cname)], [CreateLine(last.cname)], IncludeLine(c));
        CountAppend([IncludeLine(last.cname)], [CreateLine(last.cname)], CreateLine(c));
        if IncludeLine(last.cname) == IncludeLine(c) {
          InfixInjective("#include \"../obj/", last.cname, c, ".h\"");
        }
        if CreateLine(last.cname) == CreateLine(c) {
          CreateLineInjective(last.cname, c);
        }
      }
    }
  }

  /** `c` is registered as often as it is the cname of a concrete block. */
  lemma {:induction false} RegistrationsFollowConcreteNames(bs: seq<Block>, c: string)
    ensures Count(Registrations(bs), RegisterLine(c)) == Count(ConcreteNames(bs), c)
    decreases |bs|
  {
    if bs != [] {
      var init, last := bs[..|bs| - 1], bs[|bs| - 1];
      RegistrationsFollowConcreteNames(init, c);
      CountAppend(Registrations(init), if last.isAncestor then [] else [RegisterLine(last.cname)], RegisterLine(c));
      CountAppend(ConcreteNames(init), if last.isAncestor then [] else [last.cname], c);
      if !last.isAncestor && RegisterLine(last.cname) == RegisterLine(c) {
        RegisterLineInjective(last.cname, c);
      }
    }
  }

  /** No two blocks share a cname. */
  predicate DistinctCnames(bs: seq<Block>)
  {
    forall i, j :: 0 <= i < j < |bs| ==> bs[i].cname != bs[j].cname
  }

  lemma {:induction false} ConcreteNameCount(bs: seq<Block>, b: Block)
    requires DistinctCnames(bs)
    requires b in bs
    ensures Count(ConcreteNames(bs), b.cname) == if b.isAncestor then 0 else 1
    decreases |bs|
  {
    var init, last := bs[..|bs| - 1], bs[|bs| - 1];
    assert DistinctCnames(init);
    CountAppend(ConcreteNames(init), if last.isAncestor then [] else [last.cname], b.cname);
    if b == last {
      forall k | 0 <= k < |ConcreteNames(init)| ensures ConcreteNames(init)[k] != b.cname {
        ConcreteNamesFrom(init, k);
      }
      CountAbsent(ConcreteNames(init), b.cname);
    } else {
      var i :| 0 <= i < |bs| && bs[i] == b;
      if i == |bs| - 1 {
        assert false;
      }
      assert init[i] == b;
      ConcreteNameCount(init, b);
      assert last.cname != b.cname;
      assert Count(if last.isAncestor then [] else [last.cname], b.cname) == 0;
    }
  }

  /** Every concrete name comes from some block. */
  lemma {:induction false} ConcreteNamesFrom(bs: seq<Block>, k: int)
    requires 0 <= k < |ConcreteNames(bs)|
    ensures exists i :: 0 <= i < |bs| && bs[i].cname == ConcreteNames(bs)[k]
    decreases |bs|
  {
    var init, last := bs[..|bs| - 1], bs[|bs| - 1];
    if k < |ConcreteNames(init)| {
      ConcreteNamesFrom(init, k);
      var i :| 0 <= i < |init| && init[i].cname == ConcreteNames(init)[k];
      assert bs[i] == init[i];
    } else {
      assert bs[|bs| - 1].cname == ConcreteNames(bs)[k];
    }
  }

  /** Lines 207-219: with cnames distinct, the factory section holds
      exactly one include and one creation function, and the registration
      section exactly one registration, for each concrete block, and none
      for an ancestor block. */
  lemma RegisteredOncePerConcreteBlock(bs: seq<Block>, b: Block)
    requires DistinctCnames(bs)
    requires b in bs
    ensures Count(FactoryDefs(bs), IncludeLine(b.cname)) == if b.isAncestor then 0 else 1
    ensures Count(FactoryDefs(bs), CreateLine(b.cname)) == if b.isAncestor then 0 else 1
    ensures Count(Registrations(bs), RegisterLine(b.cname)) == if b.isAncestor then 0 else 1
  {
    DefsFollowConcreteNames(bs, b.cname);
    RegistrationsFollowConcreteNames(bs, b.cname);
    ConcreteNameCount(bs, b);
  }
}
