/** The block define table, obj_defines.h (nifxml_niflib.py lines 121-195):
    for every block, in `block_names` order, nine `#define` groups written
    in macro (backslash) mode, between a fixed prelude and `#endif`. */
module DefineTable {
  import opened Schema
  import opened Sink
  import opened Text

  /** One `#define` group: the define line, the fragments written under it,
      and the blank line that ends it. */
  datatype Group = Group(head: string, body: seq<string>)

  function GroupLines(g: Group): seq<string>
  {
    [g.head] + g.body + [""]
  }

  function RenderGroups(gs: seq<Group>): seq<string>
    decreases |gs|
  {
    if gs == [] then [] else RenderGroups(gs[..|gs| - 1]) + GroupLines(gs[|gs| - 1])
  }

  /** `x.inherit.cname`, or "" for a root block (lines 147-150). */
  function ParentName(x: Block): string
  {
    match x.inherit
    case None => ""
    case Some(p) => p
  }

  /** The macro-name suffixes, in the order the groups are written. */
  const GroupSuffixes: seq<string> :=
    ["_MEMBERS", "_INCLUDE", "_PARENT", "_CONSTRUCT", "_READ", "_WRITE", "_STRING", "_FIXLINKS", "_GETREFS"]

  function MembersGroup(x: Block): Group { Group("#define " + x.defineName + "_MEMBERS", x.declLines) }
  function IncludeGroup(x: Block): Group { Group("#define " + x.defineName + "_INCLUDE \"" + ParentName(x) + ".h\"", []) }
  function ParentGroup(x: Block): Group { Group("#define " + x.defineName + "_PARENT " + ParentName(x), []) }
  function ConstructGroup(x: Block): Group
  {
    Group("#define " + x.defineName + "_CONSTRUCT ", if x.construct != "" then [x.construct] else [])
  }
  function ReadGroup(x: Block): Group { Group("#define " + x.defineName + "_READ", x.streams.read) }
  function WriteGroup(x: Block): Group { Group("#define " + x.defineName + "_WRITE", x.streams.write) }
  function StringGroup(x: Block): Group { Group("#define " + x.defineName + "_STRING", x.streams.out) }
  function FixLinksGroup(x: Block): Group { Group("#define " + x.defineName + "_FIXLINKS", x.streams.fixLinks) }
  function GetRefsGroup(x: Block): Group { Group("#define " + x.defineName + "_GETREFS", x.streams.getRefs) }

  /** The nine groups of one block (lines 141-187). */
  function BlockGroups(x: Block): seq<Group>
  {
    [MembersGroup(x), IncludeGroup(x), ParentGroup(x), ConstructGroup(x), ReadGroup(x),
     WriteGroup(x), StringGroup(x), FixLinksGroup(x), GetRefsGroup(x)]
  }

  /** The groups of the whole table, block after block. */
  function TableGroups(bs: seq<Block>): seq<Group>
    decreases |bs|
  {
    if bs == [] then [] else TableGroups(bs[..|bs| - 1]) + BlockGroups(bs[|bs| - 1])
  }

  /** The text written raw before the table (lines 125-133). */
  const Prelude := "/* Copyright (c) 2006, NIF File Format Library and Tools\nAll rights reserved.  Please see niflib.h for licence. */\n\n#ifndef _OBJ_DEFINES_H_\n#define _OBJ_DEFINES_H_\n\n#define MAXARRAYDUMP 20\n\n"

  function ObjDefinesPath(root: string): string { root + "/gen/obj_defines.h" }

  /** The whole of obj_defines.h. */
  function ObjDefines(bs: seq<Block>): seq<string>
  {
    [Prelude] + RenderGroups(TableGroups(bs)) + ["#endif"]
  }

  lemma RenderGroupsSnoc(gs: seq<Group>, g: Group)
    ensures RenderGroups(gs + [g]) == RenderGroups(gs) + GroupLines(g)
  {
    assert (gs + [g])[..|gs|] == gs;
  }

  lemma {:induction false} RenderGroupsAppend(a: seq<Group>, b: seq<Group>)
    ensures RenderGroups(a + b) == RenderGroups(a) + RenderGroups(b)
    decreases |b|
  {
    if b == [] {
      assert a + b == a;
    } else {
      var init, last := b[..|b| - 1], b[|b| - 1];
      assert a + b == (a + init) + [last];
      assert b == init + [last];
      RenderGroupsSnoc(a + init, last);
      RenderGroupsAppend(a, init);
      RenderGroupsSnoc(init, last);
      AppendAssoc(RenderGroups(a), RenderGroups(init), GroupLines(last));
    }
  }

  /** The pattern every group shares: the define line, a nifxml hook's
      fragments, and `code()`. */
  method EmitGroup(h: CFile, head: string, body: seq<string>)
    modifies h`lines
    ensures h.lines == old(h.lines) + GroupLines(Group(head, body))
  {
    h.Code(head);
    h.CodeAll(body);
    h.Code("");
  }

  /** Lines 141-155: the member declarations and the two parent groups. */
  function DeclGroups(x: Block): seq<Group>
  {
    [MembersGroup(x), IncludeGroup(x), ParentGroup(x)]
  }

  method EmitDeclGroups(h: CFile, x: Block)
    modifies h`lines
    ensures h.lines == old(h.lines) + RenderGroups(DeclGroups(x))
  {
    var d := x.defineName;
    ghost var start := h.lines;
    ghost var done: seq<Group> := [];

    EmitGroup(h, "#define " + d + "_MEMBERS", x.declLines);
    RenderGroupsSnoc(done, MembersGroup(x));
    done := done + [MembersGroup(x)];

    var par := "";
    if x.inherit.Some? {
      par := x.inherit.value;
    }
    EmitGroup(h, "#define " + d + "_INCLUDE \"" + par + ".h\"", []);
    RenderGroupsSnoc(done, IncludeGroup(x));
    done := done + [IncludeGroup(x)];
    assert h.lines == start + RenderGroups(done);

    EmitGroup(h, "#define " + d + "_PARENT " + par, []);
    RenderGroupsSnoc(done, ParentGroup(x));
    done := done + [ParentGroup(x)];
    assert done == DeclGroups(x);
  }

  /** Lines 158-162: the initialiser goes under `_CONSTRUCT` only when there is one. */
  method EmitConstructGroup(h: CFile, x: Block)
    modifies h`lines
    ensures h.lines == old(h.lines) + GroupLines(ConstructGroup(x))
  {
    h.Code("#define " + x.defineName + "_CONSTRUCT ");
    var construct := x.construct;
    if construct != "" {
      h.Code(construct);
    }
    h.Code("");
  }

  /** Lines 139-187: the nine groups of one block, written in macro mode. */
  method EmitBlockDefines(h: CFile, x: Block)
    requires h.backslashMode
    modifies h`lines
    ensures h.lines == old(h.lines) + RenderGroups(BlockGroups(x))
  {
    ghost var start := h.lines;
    EmitDeclGroups(h, x);
    EmitConstructGroup(h, x);
    RenderGroupsSnoc(DeclGroups(x), ConstructGroup(x));
    assert h.lines == start + RenderGroups(DeclGroups(x) + [ConstructGroup(x)]);
    EmitActionGroups(h, x);
    RenderGroupsAppend(DeclGroups(x) + [ConstructGroup(x)], ActionGroups(x));
    assert DeclGroups(x) + [ConstructGroup(x)] + ActionGroups(x) == BlockGroups(x);
  }

  /** The five groups nifxml's `stream` fills, one per action (lines 164-187). */
  function ActionGroups(x: Block): seq<Group>
  {
    [ReadGroup(x), WriteGroup(x), StringGroup(x), FixLinksGroup(x), GetRefsGroup(x)]
  }

  method EmitActionGroups(h: CFile, x: Block)
    modifies h`lines
    ensures h.lines == old(h.lines) + RenderGroups(ActionGroups(x))
  {
    var d := x.defineName;
    ghost var start := h.lines;
    ghost var done: seq<Group> := [];
    EmitGroup(h, "#define " + d + "_READ", x.streams.read);
    RenderGroupsSnoc(done, ReadGroup(x));
    done := done + [ReadGroup(x)];
    EmitGroup(h, "#define " + d + "_WRITE", x.streams.write);
    RenderGroupsSnoc(done, WriteGroup(x));
    done := done + [WriteGroup(x)];
    assert h.lines == start + RenderGroups(done);
    EmitGroup(h, "#define " + d + "_STRING", x.streams.out);
    RenderGroupsSnoc(done, StringGroup(x));
    done := done + [StringGroup(x)];
    assert h.lines == start + RenderGroups(done);
    EmitGroup(h, "#define " + d + "_FIXLINKS", x.streams.fixLinks);
    RenderGroupsSnoc(done, FixLinksGroup(x));
    done := done + [FixLinksGroup(x)];
    assert h.lines == start + RenderGroups(done);
    EmitGroup(h, "#define " + d + "_GETREFS", x.streams.getRefs);
    RenderGroupsSnoc(done, GetRefsGroup(x));
    done := done + [GetRefsGroup(x)];
    assert done == ActionGroups(x);
  }

  /** Lines 137-187: the block loop. */
  method EmitTable(h: CFile, bs: seq<Block>)
    requires h.backslashMode
    modifies h`lines
    ensures h.lines == old(h.lines) + RenderGroups(TableGroups(bs))
  {
    ghost var start := h.lines;
    for i := 0 to |bs|
      invariant h.lines == start + RenderGroups(TableGroups(bs[..i]))
    {
      assert bs[..i + 1][..i] == bs[..i] && bs[..i + 1][i] == bs[i];
      ghost var before, added := TableGroups(bs[..i]), BlockGroups(bs[i]);
      assert TableGroups(bs[..i + 1]) == before + added;
      EmitBlockDefines(h, bs[i]);
      RenderGroupsAppend(before, added);
      AppendAssoc(start, RenderGroups(before), RenderGroups(added));
    }
    assert bs[..|bs|] == bs;
  }

  /** Lines 121-195: obj_defines.h as a whole. Macro mode is on for exactly
      the block loop. */
  method GenerateObjDefines(root: string, bs: seq<Block>) returns (f: GeneratedFile)
    ensures f == GeneratedFile(ObjDefinesPath(root), ObjDefines(bs))
  {
    var h := new CFile(root + "/gen/obj_defines.h");
    h.Code(Prelude);
    h.backslashMode := true;
    EmitTable(h, bs);
    h.backslashMode := false;
    h.Code("#endif");
    f := h.Closed();
  }

  /** Lines 142-187: every block contributes exactly the nine groups, in the
      order `_MEMBERS`, `_INCLUDE`, `_PARENT`, `_CONSTRUCT`, `_READ`, `_WRITE`,
      `_STRING`, `_FIXLINKS`, `_GETREFS`; `_INCLUDE` and `_PARENT` name the
      parent's cname, or nothing for a root block; `_CONSTRUCT` holds the
      initialiser only when there is one. */
  lemma BlockGroupsInOrder(x: Block)
    ensures var gs := BlockGroups(x); var d := x.defineName;
      |gs| == |GroupSuffixes| == 9 &&
      (forall j :: 0 <= j < 9 ==>
        |gs[j].head| >= |"#define " + d + GroupSuffixes[j]| &&
        gs[j].head[..|"#define " + d + GroupSuffixes[j]|] == "#define " + d + GroupSuffixes[j]) &&
      gs[1].head == "#define " + d + "_INCLUDE \"" + ParentName(x) + ".h\"" &&
      gs[2].head == "#define " + d + "_PARENT " + ParentName(x) &&
      (x.inherit.None? ==> ParentName(x) == "") &&
      (x.inherit.Some? ==> ParentName(x) == x.inherit.value) &&
      gs[0].body == x.declLines && gs[1].body == [] && gs[2].body == [] &&
      (gs[3].body == [] <==> x.construct == "") &&
      (x.construct != "" ==> gs[3].body == [x.construct]) &&
      gs[4].body == x.streams.read && gs[5].body == x.streams.write &&
      gs[6].body == x.streams.out && gs[7].body == x.streams.fixLinks &&
      gs[8].body == x.streams.getRefs
  {
    var gs := BlockGroups(x);
    var d := x.defineName;
    forall j | 0 <= j < 9
      ensures |gs[j].head| >= |"#define " + d + GroupSuffixes[j]|
      ensures gs[j].head[..|"#define " + d + GroupSuffixes[j]|] == "#define " + d + GroupSuffixes[j]
    {
      var p := "#define " + d + GroupSuffixes[j];
      if j == 1 {
        assert gs[1].head == p + (" \"" + ParentName(x) + ".h\"");
      } else if j == 2 {
        assert gs[2].head == p + (" " + ParentName(x));
      } else if j == 3 {
        assert gs[3].head == p + " ";
      } else {
        assert gs[j].head == p;
      }
    }
  }

  /** The table holds nine groups per block, and group `9 * i + j` is the
      `j`-th group of the `i`-th block in `block_names` order. */
  lemma {:induction false} TableLayout(bs: seq<Block>)
    ensures |TableGroups(bs)| == 9 * |bs|
    ensures forall i, j :: 0 <= i < |bs| && 0 <= j < 9 ==> TableGroups(bs)[9 * i + j] == BlockGroups(bs[i])[j]
    decreases |bs|
  {
    if bs != [] {
      var init := bs[..|bs| - 1];
      TableLayout(init);
      var pre, last := TableGroups(init), BlockGroups(bs[|bs| - 1]);
      assert TableGroups(bs) == pre + last;
      forall i, j | 0 <= i < |bs| && 0 <= j < 9
        ensures TableGroups(bs)[9 * i + j] == BlockGroups(bs[i])[j]
      {
        NineAfter(pre, last, |init|, i, j);
        if i < |init| {
          assert bs[i] == init[i];
        }
      }
    }
  }

  /** Indexing into a table of nine-element chunks extended by one more chunk. */
  lemma NineAfter<T>(pre: seq<T>, last: seq<T>, n: nat, i: nat, j: nat)
    requires |pre| == 9 * n && |last| == 9 && i <= n && j < 9
    ensures |pre + last| == 9 * (n + 1)
    ensures i < n ==> (pre + last)[9 * i + j] == pre[9 * i + j]
    ensures i == n ==> (pre + last)[9 * i + j] == last[j]
  {
  }
}
