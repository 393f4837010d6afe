/** The type tables the generator walks. Everything the nifxml library
    computes for a type (include directives, the constructor initialiser
    list, the member declarations and the statements of each action) is
    carried here as data, because that library is not part of this model. */
module Schema {

  datatype Option<T> = None | Some(value: T)

  /** A member of a block, reduced to what the skeleton emission reads.
      `func` is the accessor name; the empty string means "no accessor",
      as an unset attribute is false in the generator's tests. */
  datatype Member = Member(ctype: string, ctemplate: string, template: bool, func: string)

  /** The statement fragments nifxml's `stream` writes for one type, per action. */
  datatype Streams = Streams(
    read: seq<string>,
    write: seq<string>,
    out: seq<string>,
    fixLinks: seq<string>,
    getRefs: seq<string>)

  /** A compound (value) type. `name` is its key in `compound_names`. */
  datatype Compound = Compound(
    name: string,
    cname: string,
    niflibtype: bool,         // natively implemented in the library
    template: bool,
    description: string,
    includeH: string,         // code_include_h()
    includeCpp: string,       // code_include_cpp()
    construct: string,        // code_construct(); "" when nothing needs initialising
    declLines: seq<string>,   // what declare(x) writes
    streams: Streams)

  /** A block (object) type. `name` is its key in `block_names`; `inherit`
      holds the parent block's cname when there is a parent. */
  datatype Block = Block(
    name: string,
    cname: string,
    inherit: Option<string>,
    isAncestor: bool,
    description: string,
    includeH: string,
    includeCpp: string,
    construct: string,
    defineName: string,       // define_name(cname)
    declLines: seq<string>,
    streams: Streams,
    members: seq<Member>)

  /** A closed output file: its path and the fragments written to it, in order. */
  datatype GeneratedFile = GeneratedFile(path: string, lines: seq<string>)

  /** The licence banner every generated file starts with. */
  const Copyright: seq<string> := [
    "/* Copyright (c) 2006, NIF File Format Library and Tools",
    "All rights reserved.  Please see niflib.h for licence. */"
  ]
}
