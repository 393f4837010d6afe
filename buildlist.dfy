/** The `objfiles` list of the SConstruct file (nifxml_niflib.py lines
    273-280): the generated sources the library is built from. The rest of
    the SConstruct text is fixed boilerplate and is not modelled. */
module BuildList {
  import opened Schema
  import opened Text
  import opened Compounds

  /** Line 276: the compounds whose source file is listed. */
  predicate Listed(x: Compound)
  {
    !HasNsPrefix(x.name) && !x.niflibtype && !x.template
  }

  function CompoundEntry(name: string): string { "gen/" + name + ".cpp " }
  function BlockEntry(name: string): string { "obj/" + name + ".cpp " }

  /** Lines 274-277: one entry per listed compound, in `compound_names` order. */
  function CompoundEntries(cs: seq<Compound>): seq<string>
    decreases |cs|
  {
    if cs == [] then []
    else
      var last := cs[|cs| - 1];
      CompoundEntries(cs[..|cs| - 1]) + (if Listed(last) then [CompoundEntry(last.name)] else [])
  }

  /** Lines 278-279: one entry per block, in `block_names` order. */
  function BlockEntries(bs: seq<Block>): seq<string>
    decreases |bs|
  {
    if bs == [] then []
    else BlockEntries(bs[..|bs| - 1]) + [BlockEntry(bs[|bs| - 1].name)]
  }

  /** The fragments lines 273-280 write, in order. */
  function ObjFilesWrites(cs: seq<Compound>, bs: seq<Block>): seq<string>
  {
    ["objfiles = '"] + CompoundEntries(cs) + BlockEntries(bs) + ["'\n\n"]
  }

  /** Lines 273-280: the two loops that write the list. */
  method WriteObjFiles(cs: seq<Compound>, bs: seq<Block>) returns (writes: seq<string>)
    ensures writes == ObjFilesWrites(cs, bs)
  {
    writes := ["objfiles = '"];
    for i := 0 to |cs|
      invariant writes == ["objfiles = '"] + CompoundEntries(cs[..i])
    {
      var x := cs[i];
      assert cs[..i + 1][..i] == cs[..i] && cs[..i + 1][i] == x;
      if Listed(x) {
        writes := writes + [CompoundEntry(x.name)];
      }
    }
    assert cs[..|cs|] == cs;
    ghost var afterCompounds := writes;
    for i := 0 to |bs|
      invariant writes == afterCompounds + BlockEntries(bs[..i])
    {
      assert bs[..i + 1][..i] == bs[..i] && bs[..i + 1][i] == bs[i];
      writes := writes + [BlockEntry(bs[i].name)];
    }
    assert bs[..|bs|] == bs;
    writes := writes + ["'\n\n"];
  }

  /** The compounds whose header loop also writes a `.cpp`, in order. */
  function WithCpp(cs: seq<Compound>): (r: seq<Compound>)
    ensures forall k :: 0 <= k < |r| ==> Listed(r[k]) && r[k] in cs
    decreases |cs|
  {
    if cs == [] then []
    else
      var last := cs[|cs| - 1];
      var r := WithCpp(cs[..|cs| - 1]) + (if Listed(last) then [last] else []);
      assert forall x :: x in cs[..|cs| - 1] ==> x in cs;
      r
  }

  /** The `.cpp` files among the outputs of the compound loop, in order. */
  function CppFiles(outs: seq<CompoundOutput>): seq<GeneratedFile>
    decreases |outs|
  {
    if outs == [] then []
    else
      var last := outs[|outs| - 1];
      CppFiles(outs[..|outs| - 1]) + (if last.cpp.Some? then [last.cpp.value] else [])
  }

  lemma CppFilesSnoc(outs: seq<CompoundOutput>, o: CompoundOutput)
    ensures CppFiles(outs + [o]) == CppFiles(outs) + (if o.cpp.Some? then [o.cpp.value] else [])
  {
    assert (outs + [o])[..|outs|] == outs;
  }

  /** The list names the listed compounds by their `compound_names` key, in order. */
  lemma {:induction false} CompoundEntriesFollowWithCpp(cs: seq<Compound>)
    ensures |CompoundEntries(cs)| == |WithCpp(cs)|
    ensures forall k :: 0 <= k < |WithCpp(cs)| ==> CompoundEntries(cs)[k] == "gen/" + WithCpp(cs)[k].name + ".cpp "
    decreases |cs|
  {
    if cs != [] {
      CompoundEntriesFollowWithCpp(cs[..|cs| - 1]);
    }
  }

  /** The compound loop writes a `.cpp` for exactly the listed compounds, in order, under their cnames. */
  lemma {:induction false} CppFilesFollowWithCpp(root: string, cs: seq<Compound>, comment: string -> seq<string>)
    ensures |CppFiles(CompoundOutputs(root, cs, comment))| == |WithCpp(cs)|
    ensures forall k :: 0 <= k < |WithCpp(cs)| ==>
      CppFiles(CompoundOutputs(root, cs, comment))[k]
        == GeneratedFile(root + "/gen/" + WithCpp(cs)[k].cname + ".cpp", CompoundCpp(WithCpp(cs)[k]))
    decreases |cs|
  {
    if cs != [] {
      var init, last := cs[..|cs| - 1], cs[|cs| - 1];
      CppFilesFollowWithCpp(root, init, comment);
      var outs := CompoundOutputs(root, init, comment);
      var o := CompoundOutputOf(root, last, comment);
      assert CompoundOutputs(root, cs, comment) == outs + (if o.Some? then [o.value] else []);
      if o.Some? {
        CppFilesSnoc(outs, o.value);
        assert o.value.cpp.Some? <==> Listed(last);
        assert o.value.cpp.Some? ==> o.value.cpp.value == GeneratedFile(root + "/gen/" + last.cname + ".cpp", CompoundCpp(last));
        assert WithCpp(cs) == WithCpp(init) + (if o.value.cpp.Some? then [last] else []);
      } else {
        assert !Listed(last);
        assert CompoundOutputs(root, cs, comment) == outs;
        assert WithCpp(cs) == WithCpp(init);
      }
    }
  }

  /** Lines 82 and 276 agree: the listed compounds are exactly those the
      compound loop writes a `.cpp` for, in the same order. The k-th entry of
      the list names a compound by its `compound_names` key; the k-th `.cpp`
      written is that same compound's, under its cname. */
  lemma CompoundEntriesMatchCppFiles(root: string, cs: seq<Compound>, comment: string -> seq<string>)
    ensures |CompoundEntries(cs)| == |WithCpp(cs)| == |CppFiles(CompoundOutputs(root, cs, comment))|
    ensures forall k :: 0 <= k < |WithCpp(cs)| ==>
      var x := WithCpp(cs)[k];
      x in cs && Listed(x) &&
      CompoundEntries(cs)[k] == "gen/" + x.name + ".cpp " &&
      CppFiles(CompoundOutputs(root, cs, comment))[k] == GeneratedFile(root + "/gen/" + x.cname + ".cpp", CompoundCpp(x))
  {
    CompoundEntriesFollowWithCpp(cs);
    CppFilesFollowWithCpp(root, cs, comment);
  }

  /** Every block is listed, under `obj/`, in `block_names` order, ancestors included. */
  lemma {:induction false} EveryBlockListed(bs: seq<Block>)
    ensures |BlockEntries(bs)| == |bs|
    ensures forall k :: 0 <= k < |bs| ==> BlockEntries(bs)[k] == "obj/" + bs[k].name + ".cpp "
    decreases |bs|
  {
    if bs != [] {
      EveryBlockListed(bs[..|bs| - 1]);
    }
  }
}
