/** The command-line scan (nifxml_niflib.py lines 18-27): `-p <dir>` sets the
    output root, `-b` asks for the bootstrap skeletons, and every other
    argument is ignored. The scan runs over the whole argument vector,
    program name included. */
module Args {

  /** The output root: the argument that directly follows the last `-p` that
      has a successor, or "." when there is none. Defined from the end of
      the vector, independently of the forward scan. */
  function RootDirOf(argv: seq<string>): string
    decreases |argv|
  {
    if |argv| < 2 then "."
    else if argv[|argv| - 2] == "-p" then argv[|argv| - 1]
    else RootDirOf(argv[..|argv| - 1])
  }

  /** Some `-b` is not itself the directory operand of a `-p`. */
  predicate BootstrapRequested(argv: seq<string>)
  {
    exists j :: 0 <= j < |argv| && argv[j] == "-b" && (j == 0 || argv[j - 1] != "-p")
  }

  /** `argv[i]` is a `-p` with an operand, and no later `-p` has one. */
  predicate IsLastDirFlag(argv: seq<string>, i: int)
  {
    0 <= i < |argv| - 1 && argv[i] == "-p" &&
    forall k :: i < k < |argv| - 1 ==> argv[k] != "-p"
  }

  /** The loop of lines 21-27, with `prev`, `ROOT_DIR` and `BOOTSTRAP` as its state. */
  method ScanArgs(argv: seq<string>) returns (rootDir: string, bootstrap: bool)
    ensures rootDir == RootDirOf(argv)
    ensures bootstrap == BootstrapRequested(argv)
  {
    rootDir := ".";
    bootstrap := false;
    var prev := "";
    var i := 0;
    while i < |argv|
      invariant 0 <= i <= |argv|
      invariant prev == if i == 0 then "" else argv[i - 1]
      invariant rootDir == RootDirOf(argv[..i])
      invariant bootstrap == BootstrapRequested(argv[..i])
    {
      var arg := argv[i];
      assert argv[..i + 1][..i] == argv[..i];
      BootstrapSnoc(argv[..i], arg);
      assert argv[..i + 1] == argv[..i] + [arg];
      if prev == "-p" {
        rootDir := arg;
      } else if arg == "-b" {
        bootstrap := true;
      }
      prev := arg;
      i := i + 1;
    }
    assert argv[..i] == argv;
  }

  /** One more argument turns the bootstrap switch on exactly when it is a
      `-b` that does not follow a `-p`. */
  lemma BootstrapSnoc(argv: seq<string>, a: string)
    ensures BootstrapRequested(argv + [a]) ==
      (BootstrapRequested(argv) || (a == "-b" && (argv == [] || argv[|argv| - 1] != "-p")))
  {
    var s := argv + [a];
    if BootstrapRequested(s) {
      var j :| 0 <= j < |s| && s[j] == "-b" && (j == 0 || s[j - 1] != "-p");
      if j < |argv| {
        assert argv[j] == "-b" && (j == 0 || argv[j - 1] != "-p");
      }
    }
    if BootstrapRequested(argv) {
      var j :| 0 <= j < |argv| && argv[j] == "-b" && (j == 0 || argv[j - 1] != "-p");
      assert s[j] == "-b" && (j == 0 || s[j - 1] != "-p");
    }
    if a == "-b" && (argv == [] || argv[|argv| - 1] != "-p") {
      var j := |argv|;
      assert s[j] == "-b" && (j == 0 || s[j - 1] != "-p");
    }
  }

  /** ROOT_DIR is "." when no `-p` has an operand, and otherwise the operand
      of the last `-p` that has one. */
  lemma {:induction false} RootDirFollowsLastP(argv: seq<string>)
    ensures (forall k :: 0 <= k < |argv| - 1 ==> argv[k] != "-p") ==> RootDirOf(argv) == "."
    ensures (exists k :: 0 <= k < |argv| - 1 && argv[k] == "-p") ==>
      exists i :: IsLastDirFlag(argv, i) && RootDirOf(argv) == argv[i + 1]
    decreases |argv|
  {
    if |argv| >= 2 {
      var n := |argv|;
      var init := argv[..n - 1];
      if argv[n - 2] == "-p" {
        assert IsLastDirFlag(argv, n - 2);
      } else {
        RootDirFollowsLastP(init);
        if exists k :: 0 <= k < n - 1 && argv[k] == "-p" {
          var k :| 0 <= k < n - 1 && argv[k] == "-p";
          assert k < n - 2;
          assert init[k] == "-p";
          var i :| IsLastDirFlag(init, i) && RootDirOf(init) == init[i + 1];
          assert IsLastDirFlag(argv, i);
        } else {
          forall k | 0 <= k < |init| - 1 ensures init[k] != "-p" {
            assert init[k] == argv[k];
          }
        }
      }
    }
  }

  /** An argument that is neither `-b` nor the operand of a `-p` changes
      neither ROOT_DIR nor BOOTSTRAP. */
  lemma UnrecognisedArgumentIgnored(argv: seq<string>, a: string)
    requires a != "-b" && a != "-p"
    requires argv == [] || argv[|argv| - 1] != "-p"
    ensures RootDirOf(argv + [a]) == RootDirOf(argv)
    ensures BootstrapRequested(argv + [a]) == BootstrapRequested(argv)
  {
    BootstrapSnoc(argv, a);
    assert (argv + [a])[..|argv|] == argv;
  }

  /** A `-b` directly after `-p` becomes the output root and does not turn
      bootstrap on: the `prev == "-p"` branch is checked first. */
  lemma DashBAfterDashPIsDirectory(argv: seq<string>)
    ensures RootDirOf(argv + ["-p", "-b"]) == "-b"
    ensures BootstrapRequested(argv + ["-p", "-b"]) == BootstrapRequested(argv)
  {
    BootstrapSnoc(argv, "-p");
    BootstrapSnoc(argv + ["-p"], "-b");
    assert argv + ["-p"] + ["-b"] == argv + ["-p", "-b"];
  }
}
