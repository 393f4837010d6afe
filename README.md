# Niflib code generator driver, modelled in Dafny

`nifxml_niflib.py` is the driver that turns the NIF file-format description
(already parsed by `nifxml` into compound and block type tables) into Niflib's
C++ sources. This project models one run of that driver:

- the command-line scan that sets `ROOT_DIR` and `BOOTSTRAP`;
- the compound loop: a header per compound that is neither natively implemented
  nor an `ns ` type, and a `.cpp` beside it unless the compound is a template;
- `gen/obj_defines.h`: nine `#define` groups per block;
- `gen/obj_factories.cpp`: one creation function and one registration per
  block that is not an ancestor;
- the `objfiles` list of the SConstruct file;
- with `-b`, the hand-editable skeleton header and implementation of every block.

A generated file is modelled as its path and the sequence of fragments handed
to nifxml's `CFile.code()` (class `Sink.CFile`, whose `Code` methods append to
a `lines` field). The emission code is imperative: each emitting method is a
module-level method that takes the `CFile` it writes to and is proved against
a function that states what it appends; the lemmas state what the generator
promises about the resulting files. The SConstruct list is written with plain
`write` calls and is modelled as the sequence of strings written.

Modules, one file each:

| file | module(s) | source |
|---|---|---|
| `schema.dfy` | `Schema` | the compound, block and member records the driver reads |
| `text.dfy` | `Text` | `str.upper()`, `n[:3] == 'ns '`, counting |
| `sink.dfy` | `Sink` | nifxml's `CFile` as a fragment list |
| `args.dfy` | `Args` | lines 18-27 |
| `compounds.dfy` | `Compounds`, `CompoundProperties` | lines 33-116 |
| `defines.dfy` | `DefineTable` | lines 121-195 |
| `factories.dfy` | `Factories` | lines 199-219 |
| `buildlist.dfy` | `BuildList` | lines 273-280 |
| `skeletons.dfy` | `Bootstrap`, `BootstrapProperties` | lines 299-395 |
| `driver.dfy` | `Driver` | the whole script |

## Model

| member | source | states |
|---|---|---|
| Args.ScanArgs | nifxml_niflib.py:18-27 | the loop over argv yields ROOT_DIR equal to `RootDirOf(argv)` and BOOTSTRAP equal to `BootstrapRequested(argv)` (some `-b` not directly after a `-p`) |
| Args.RootDirFollowsLastP | nifxml_niflib.py:18-25 | ROOT_DIR is "." when no `-p` has a following argument, and otherwise the argument after the last `-p` that has one |
| Args.BootstrapSnoc | nifxml_niflib.py:21-27 | one more argument turns BOOTSTRAP on exactly when it is `-b` and the previous argument is not `-p`; BOOTSTRAP never turns off |
| Args.UnrecognisedArgumentIgnored | nifxml_niflib.py:21-27 | an argument that is neither `-b`, `-p` nor a `-p` operand changes neither ROOT_DIR nor BOOTSTRAP |
| Args.DashBAfterDashPIsDirectory | nifxml_niflib.py:22-25 | `-p -b` makes `-b` the output root and does not request bootstrap, because the `prev == "-p"` branch is checked first |
| Text.Upper | nifxml_niflib.py:44-45 | upper-casing keeps the length, leaves no lower-case ASCII letter and leaves every other character unchanged |
| Compounds.GenerateCompounds | nifxml_niflib.py:33-116 | the compound loop writes exactly `CompoundOutputs`: per compound, nothing, a header, or a header and a `.cpp`, with the contents below |
| Compounds.EmitHeaderPrologue | nifxml_niflib.py:41-51 | appends the banner, the include guard, the NIF_IO and compound includes, the NiObject include for Header and Footer only, and a blank line |
| Compounds.EmitCppPrologue | nifxml_niflib.py:84-101 | appends the banner and include, the constructor definition only when the initialiser is non-empty, then the destructor |
| Compounds.EmitCompoundHeader | nifxml_niflib.py:40-80 | appends the whole compound header `CompoundHeader(x)` |
| Compounds.EmitCompoundCpp | nifxml_niflib.py:83-116 | appends the whole compound implementation file `CompoundCpp(x)` |
| CompoundProperties.FilesWrittenPerCompound | nifxml_niflib.py:36-40 | a compound writes nothing iff it is natively implemented or its name starts with `ns `; otherwise a header at `gen/<cname>.h`, and a `.cpp` at `gen/<cname>.cpp` iff it is not a template |
| CompoundProperties.CompoundOutputsFollowOrder | nifxml_niflib.py:33-38 | the outputs are one per non-skipped compound, in `compound_names` order |
| CompoundProperties.HeaderGuardAndClose | nifxml_niflib.py:41-80 | the header starts with the banner, its guard macro is `_<CNAME>_H_` upper-cased, and it ends with `};`, a blank line and `#endif` |
| CompoundProperties.StructLineAndConstructors | nifxml_niflib.py:54-68 | the struct line has the `template <class T >` prefix iff the compound is a template; a template has no constructor or destructor declarations, any other compound declares both before its members |
| CompoundProperties.HeaderFooterDeclarations | nifxml_niflib.py:49-75 | the NiObject include is written iff the compound is Header or Footer, and exactly those declare Read, Write and asString after the members |
| CompoundProperties.ConstructorOnlyWithInitialiser | nifxml_niflib.py:92-101 | the constructor definition is present iff the initialiser is non-empty, and the destructor definition always follows |
| CompoundProperties.HeaderFooterDefinitions | nifxml_niflib.py:104-116 | after the destructor, Header and Footer get Read, Write and asString definitions in that order, each around its streamed body; any other compound's file ends with the destructor |
| DefineTable.EmitTable | nifxml_niflib.py:137-186 | the block loop appends exactly the rendered groups of every block, in `block_names` order |
| DefineTable.GenerateObjDefines | nifxml_niflib.py:121-195 | obj_defines.h is the raw prelude, the rendered groups of every block, and `#endif` |
| DefineTable.BlockGroupsInOrder | nifxml_niflib.py:142-186 | each block gives nine groups `_MEMBERS`, `_INCLUDE`, `_PARENT`, `_CONSTRUCT`, `_READ`, `_WRITE`, `_STRING`, `_FIXLINKS`, `_GETREFS` in that order; the parent is "" when there is none; `_CONSTRUCT` has a body iff the initialiser is non-empty |
| DefineTable.TableLayout | nifxml_niflib.py:137-186 | the table holds nine groups per block, group `9*i+j` being the `j`-th group of block `i` |
| DefineTable.RenderGroupsAppend | nifxml_niflib.py:137-186 | rendering a table split in two is rendering each part in turn |
| Factories.GenerateFactories | nifxml_niflib.py:199-219 | obj_factories.cpp is the preamble, the creation functions, the registration function head, the registrations and `}` |
| Factories.FactoriesFollowConcrete | nifxml_niflib.py:207-218 | both loops follow the non-ancestor blocks in order: an include and a creation function per such block, and one registration |
| Factories.DefsFollowConcreteNames | nifxml_niflib.py:207-211 | the include and the creation function of a cname each occur as often as it is the cname of a non-ancestor block |
| Factories.RegistrationsFollowConcreteNames | nifxml_niflib.py:215-218 | the registration of a cname occurs as often as it is the cname of a non-ancestor block |
| Factories.RegisteredOncePerConcreteBlock | nifxml_niflib.py:207-218 | with distinct cnames, a non-ancestor block has exactly one include, one creation function and one registration, an ancestor none |
| Factories.CreateLineInjective | nifxml_niflib.py:211 | distinct cnames give distinct creation functions |
| Factories.RegisterLineInjective | nifxml_niflib.py:218 | distinct cnames give distinct registrations |
| BuildList.WriteObjFiles | nifxml_niflib.py:273-280 | the two loops write `objfiles = '`, the listed compounds, every block and the closing quote |
| BuildList.CompoundEntriesMatchCppFiles | nifxml_niflib.py:276 | the listed compounds are exactly those the compound loop writes a `.cpp` for, in the same order; entry k names the compound by its key, `.cpp` file k is the same compound's under its cname |
| BuildList.EveryBlockListed | nifxml_niflib.py:278-279 | every block, ancestors included, is listed as `obj/<name>.cpp` in `block_names` order |
| Bootstrap.GenerateSkeletons | nifxml_niflib.py:299-395 | one skeleton header and implementation per block, in order, with the contents below |
| Bootstrap.EmitSkeletonHeader | nifxml_niflib.py:302-346 | appends the whole skeleton header `SkeletonHeader(x)` |
| Bootstrap.EmitSkeletonCpp | nifxml_niflib.py:349-394 | appends the whole skeleton implementation `SkeletonCpp(x)` |
| BootstrapProperties.AccessorDefShape | nifxml_niflib.py:386-394 | in all three shapes the definition returns the accessor's return type and its body returns the default value |
| BootstrapProperties.AccessorDeclShape | nifxml_niflib.py:334-342 | the declaration has the definition's return type and name, class-qualified for template members only |
| BootstrapProperties.DefaultValueShape | nifxml_niflib.py:389-394 | the default is `NULL` iff the member is a template whose type is `*`, and otherwise a value-initialised instance of the return type |
| BootstrapProperties.AccessorsFollowFuncMembers | nifxml_niflib.py:334-394 | one declaration and one definition per member with an accessor name, in member order, and none for the others |
| BootstrapProperties.SkeletonHeaderFixedPart | nifxml_niflib.py:302-333 | the header starts with the banner and guard, its class derives from `<DEFINE>_PARENT`, and the public part ends with `protected:` |
| BootstrapProperties.SkeletonHeaderAccessors | nifxml_niflib.py:333-346 | after `protected:` come exactly the accessor declarations, then `_MEMBERS`, `};`, a blank line and `#endif` |
| BootstrapProperties.SkeletonCppFixedPart | nifxml_niflib.py:349-384 | TYPE names the class and its parent's TYPE, the constructor expands `_CONSTRUCT`, Read to GetRefs expand their macros in order, GetType returns TYPE |
| BootstrapProperties.SkeletonCppAccessors | nifxml_niflib.py:385-394 | after the fixed part the implementation holds exactly the accessor definitions, in order |
| BootstrapProperties.SkeletonsPerBlock | nifxml_niflib.py:299-305 | one skeleton per block, ancestors included, at `obj/<cname>.h` and `obj/<cname>.cpp` |
| Driver.Generate | nifxml_niflib.py:18-395 | one run writes exactly `RunOf(argv, ...)`: the argument scan, then the compound files, obj_defines.h, obj_factories.cpp, the objfiles list, and the skeletons only with `-b` |
| Driver.SkeletonsOnlyWhenBootstrap | nifxml_niflib.py:299 | skeletons are written iff bootstrap is requested and there is a block, and then one per block |

## Left out

- File I/O: creating directories (`mkpath`), opening and closing files. A file is its path and the fragments written to it. The script writes the skeletons without checking whether the files already exist, and so does the model.
- nifxml internals are parameters of the model: `code_include_h`, `code_include_cpp`, `code_construct`, `define_name`, the fragments of `declare` and `stream`, and how `comment` renders a description. How `CFile` indents a fragment and adds continuation backslashes in macro mode is not modelled; the model records only when macro mode is on.
- The SConstruct boilerplate before and after the `objfiles` list, and the SConstruct path. They are fixed text and depend on no input.
- `h.write(...)` in obj_defines.h writes its prelude raw, with no newline added. The model keeps it as one fragment.
- DefineTable.GenerateObjDefines: the file records fragments only, not whether each was written in macro mode. `EmitTable` requires macro mode, but no contract says that the prelude and `#endif` are written outside it.
- Text.Upper: upper-cases ASCII letters only, where Python's `str.upper()` also maps other Unicode letters. Generated class names are ASCII.
- BuildList.CompoundEntriesMatchCppFiles: the objfiles list names a compound by its `compound_names` key, while its file is written under its cname. The lemma ties the two to the same compound; it does not claim that key and cname agree.
- BuildList.EveryBlockListed: the objfiles list names a block by its `block_names` key, while its skeleton files are written under its cname. The lemma states the list per block; it does not claim that key and cname agree.
- Factories.RegisteredOncePerConcreteBlock: holds only when no two blocks share a cname. Without that, Factories.DefsFollowConcreteNames and Factories.RegistrationsFollowConcreteNames give the count per cname.
- Counts are stated over the creation and registration sections of obj_factories.cpp, not over the whole file. The fixed preamble is a constant.
- The model does not prove that every written path lies under ROOT_DIR. Each path is stated per file: `gen/<cname>.h`, `gen/<cname>.cpp`, `gen/obj_defines.h`, `gen/obj_factories.cpp`, `obj/<cname>.h` and `obj/<cname>.cpp`.
