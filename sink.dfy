/** The code emission sink: nifxml's `CFile`, modelled as the list of
    fragments handed to it. How a fragment is indented, or rendered with
    continuation backslashes in macro mode, belongs to nifxml and is not modelled. */
module Sink {
  import opened Schema

  class CFile {
    const path: string
    var lines: seq<string>
    var backslashMode: bool

    constructor (path: string)
      ensures this.path == path && lines == [] && !backslashMode
    {
      this.path := path;
      lines := [];
      backslashMode := false;
    }

    /** `code(txt)`: append one fragment. `code()` is `Code("")`. */
    method Code(txt: string)
      modifies this`lines
      ensures lines == old(lines) + [txt]
    {
      lines := lines + [txt];
    }

    /** The fragments of a nifxml hook (`declare`, `stream`), in the order it writes them. */
    method CodeAll(txts: seq<string>)
      modifies this`lines
      ensures lines == old(lines) + txts
    {
      lines := lines + txts;
    }

    /** The file as it stands when closed. */
    function Closed(): (f: GeneratedFile)
      reads this
      ensures f.path == path && f.lines == lines
    {
      GeneratedFile(path, lines)
    }
  }
}
