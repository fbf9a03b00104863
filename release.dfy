/**
 * The default FreeBSD release a jail is created from, derived from the host kernel's
 * release string (`uname -r`, an input here). The library and the command line compute
 * it differently: `src/lib.rs` keeps the first two `-`-separated pieces with `STABLE`
 * renamed `RELEASE`; `src/cli.rs` replaces every `-STABLE` by `-RELEASE` and keeps the rest.
 */
module Release {
  import opened RustStr

  const Stable: string := "-STABLE"
  const Released: string := "-RELEASE"

  function StableToRelease(piece: string): string {
    if piece == "STABLE" then "RELEASE" else piece
  }

  function MapPieces(parts: seq<string>): (r: seq<string>)
    ensures |r| == |parts|
    ensures forall i :: 0 <= i < |parts| ==> r[i] == StableToRelease(parts[i])
  {
    seq(|parts|, i requires 0 <= i < |parts| => StableToRelease(parts[i]))
  }

  /** `default_release` in `src/lib.rs`. */
  function LibDefaultRelease(uname: string): string {
    var mapped := MapPieces(Split(uname, '-'));
    Join(mapped[..if |mapped| < 2 then |mapped| else 2], '-')
  }

  /** `default_release` in `src/cli.rs`. */
  function CliDefaultRelease(uname: string): string {
    ReplaceAll(uname, Stable, Released)
  }

  // ---------------------------------------------------------------------------
  // The library's release

  /**
   * The library's release consists of the first one or two pieces of the kernel release,
   * each with `STABLE` renamed `RELEASE`, joined by `-`.
   */
  lemma LibReleasePieces(uname: string)
    ensures var parts := Split(uname, '-');
      var n := if |parts| < 2 then |parts| else 2;
      Split(LibDefaultRelease(uname), '-') == MapPieces(parts)[..n]
  {
    var parts := Split(uname, '-');
    var mapped := MapPieces(parts);
    var n := if |parts| < 2 then |parts| else 2;
    SplitPiecesFree(uname, '-');
    forall k | 0 <= k < n ensures Free(mapped[..n][k], '-') {
      assert mapped[..n][k] == StableToRelease(parts[k]);
    }
    SplitJoin(mapped[..n], '-');
  }

  /** Deriving the release again changes nothing: at most two pieces, and none is `STABLE`. */
  lemma LibReleaseIdempotent(uname: string)
    ensures LibDefaultRelease(LibDefaultRelease(uname)) == LibDefaultRelease(uname)
  {
    var r := LibDefaultRelease(uname);
    var parts := Split(uname, '-');
    var n := if |parts| < 2 then |parts| else 2;
    LibReleasePieces(uname);
    var again := Split(r, '-');
    assert again == MapPieces(parts)[..n];
    assert MapPieces(again) == again;
    assert MapPieces(again)[..|again|] == again;
    JoinSplit(r, '-');
  }

  /** A release without a `-` is kept, except that a bare `STABLE` becomes `RELEASE`. */
  lemma LibReleaseSinglePiece(uname: string)
    requires Free(uname, '-')
    ensures LibDefaultRelease(uname) == StableToRelease(uname)
  {
    SplitFree(uname, '-');
  }

  // ---------------------------------------------------------------------------
  // The command line's release

  /** `-STABLE` occurs somewhere in `s`. */
  predicate HasStable(s: string) {
    exists i :: 0 <= i <= |s| && StartsWith(s[i..], Stable)
  }

  /** Replacing keeps every `-`-free prefix: it neither creates nor destroys one. */
  lemma {:induction false} ReplacePrefix(t: string, w: string)
    requires Free(w, '-')
    ensures StartsWith(CliDefaultRelease(t), w) <==> StartsWith(t, w)
    decreases |t|
  {
    var r := CliDefaultRelease(t);
    if w != [] && |t| >= |Stable| {
      if t[..|Stable|] == Stable {
        assert r == Released + CliDefaultRelease(t[|Stable|..]);
        assert r[0] == '-' && t[0] == '-' && w[0] != '-';
      } else {
        var r' := CliDefaultRelease(t[1..]);
        assert r == [t[0]] + r';
        ReplacePrefix(t[1..], w[1..]);
        assert Free(w[1..], '-');
        assert StartsWith(r, w) <==> r[0] == w[0] && StartsWith(r', w[1..]);
        assert StartsWith(t, w) <==> t[0] == w[0] && StartsWith(t[1..], w[1..]);
      }
    }
  }

  /** After the command line's replacement no `-STABLE` is left. */
  lemma {:induction false} CliReleaseHasNoStable(uname: string)
    ensures !HasStable(CliDefaultRelease(uname))
    decreases |uname|
  {
    var r := CliDefaultRelease(uname);
    if |uname| < |Stable| {
      assert r == uname;
      forall i | 0 <= i <= |r| ensures !StartsWith(r[i..], Stable) {
      }
    } else if uname[..|Stable|] == Stable {
      var rest := CliDefaultRelease(uname[|Stable|..]);
      CliReleaseHasNoStable(uname[|Stable|..]);
      assert r == Released + rest;
      forall i | 0 <= i <= |r| ensures !StartsWith(r[i..], Stable) {
        if i >= |Released| {
          assert r[i..] == rest[i - |Released|..];
        } else if i == 0 {
          assert r[..|Stable|] != Stable by {
            assert r[1] == 'R';
          }
        } else {
          assert r[i] == Released[i] && r[i] != '-';
        }
      }
    } else {
      var rest := CliDefaultRelease(uname[1..]);
      CliReleaseHasNoStable(uname[1..]);
      assert r == [uname[0]] + rest;
      forall i | 0 <= i <= |r| ensures !StartsWith(r[i..], Stable) {
        if i >= 1 {
          assert r[i..] == rest[i - 1..];
        } else {
          assert Free("STABLE", '-');
          ReplacePrefix(uname[1..], "STABLE");
          assert uname[..|Stable|] == [uname[0]] + uname[1..][..6];
          if uname[0] == '-' {
            assert uname[1..][..6] != "STABLE";
            assert !StartsWith(rest, "STABLE");
            if |r| >= |Stable| {
              assert r[..|Stable|][1..] == rest[..6];
            }
          } else {
            assert r[0] != '-';
          }
        }
      }
    }
  }

  /** The command line's release differs from the kernel's exactly when that holds a `-STABLE`. */
  lemma {:induction false} CliChangesIff(uname: string)
    ensures CliDefaultRelease(uname) == uname <==> !HasStable(uname)
    decreases |uname|
  {
    var r := CliDefaultRelease(uname);
    CliReleaseHasNoStable(uname);
    if !HasStable(uname) && |uname| >= |Stable| {
      assert !StartsWith(uname[0..], Stable);
      assert uname[0..] == uname;
      assert r == [uname[0]] + CliDefaultRelease(uname[1..]);
      forall i | 0 <= i <= |uname[1..]| ensures !StartsWith(uname[1..][i..], Stable) {
        assert uname[1..][i..] == uname[i + 1..];
      }
      CliChangesIff(uname[1..]);
      assert uname == [uname[0]] + uname[1..];
    }
  }

  /** A release without a `-` is kept by the command line. */
  lemma CliReleaseSinglePiece(uname: string)
    requires Free(uname, '-')
    ensures CliDefaultRelease(uname) == uname
  {
    NoReplace(uname, Stable, Released);
  }

  // ---------------------------------------------------------------------------
  // The two compared

  /** The library's release of a `<version>-<tag>` release: the version, then the tag with `STABLE` renamed. */
  lemma LibVersionTag(version: string, tag: string)
    requires Free(version, '-') && Free(tag, '-')
    ensures LibDefaultRelease(version + "-" + tag) == StableToRelease(version) + "-" + StableToRelease(tag)
  {
    assert version + "-" + tag == version + ['-'] + tag;
    SplitAround(version, tag, '-');
    SplitFree(version, '-');
    SplitFree(tag, '-');
    assert Split(version + "-" + tag, '-') == [version, tag];
    var pieces := [StableToRelease(version), StableToRelease(tag)];
    assert MapPieces([version, tag])[..2] == pieces;
    assert pieces[1..] == [StableToRelease(tag)];
    assert Join(pieces, '-') == pieces[0] + ['-'] + Join(pieces[1..], '-');
  }

  /** The library keeps two pieces and drops whatever follows the second `-`. */
  lemma LibKeepsTwoPieces(version: string, tag: string, rest: string)
    requires Free(version, '-') && Free(tag, '-')
    ensures LibDefaultRelease(version + "-" + tag + "-" + rest) == StableToRelease(version) + "-" + StableToRelease(tag)
  {
    var s := version + "-" + tag + "-" + rest;
    assert s == version + ['-'] + (tag + ['-'] + rest);
    SplitAround(version, tag + ['-'] + rest, '-');
    SplitAround(tag, rest, '-');
    SplitFree(version, '-');
    SplitFree(tag, '-');
    var parts := Split(s, '-');
    assert parts == [version, tag] + Split(rest, '-');
    var pieces := [StableToRelease(version), StableToRelease(tag)];
    assert MapPieces(parts)[..2] == pieces;
    assert pieces[1..] == [StableToRelease(tag)];
    assert Join(pieces, '-') == pieces[0] + ['-'] + Join(pieces[1..], '-');
  }

  /**
   * The command line's release of a `<version>-<tag>` release whose tag is `STABLE` or
   * does not begin with it: the version, then the tag with `STABLE` renamed.
   */
  lemma CliVersionTag(version: string, tag: string)
    requires Free(version, '-') && Free(tag, '-')
    requires tag == "STABLE" || !StartsWith(tag, "STABLE")
    ensures CliDefaultRelease(version + "-" + tag) == version + "-" + StableToRelease(tag)
  {
    if tag == "STABLE" {
      var t := "-" + tag;
      assert version + "-" + tag == version + t;
      ReplaceAfter(version, t, Stable, Released);
      assert t == Stable;
      assert t[|Stable|..] == [];
      assert CliDefaultRelease([]) == [];
      assert CliDefaultRelease(t) == Released + CliDefaultRelease([]);
      assert Released == "-" + "RELEASE";
    } else {
      CliStep(version, tag);
      CliReleaseSinglePiece(tag);
    }
  }


  /**
   * On a `<version>-<tag>` release the two agree, both giving `<version>-<tag>` with a
   * `STABLE` tag renamed `RELEASE`, unless the version is `STABLE` itself or the tag merely
   * begins with `STABLE`.
   */
  lemma ReleasesAgree(version: string, tag: string)
    requires Free(version, '-') && Free(tag, '-')
    requires version != "STABLE"
    requires tag == "STABLE" || !StartsWith(tag, "STABLE")
    ensures LibDefaultRelease(version + "-" + tag) == version + "-" + StableToRelease(tag)
    ensures CliDefaultRelease(version + "-" + tag) == version + "-" + StableToRelease(tag)
  {
    LibVersionTag(version, tag);
    CliVersionTag(version, tag);
  }

  /** Both variants turn `11.2-STABLE` into `11.2-RELEASE`. */
  lemma StableHostRelease()
    ensures LibDefaultRelease("11.2-STABLE") == "11.2-RELEASE"
    ensures CliDefaultRelease("11.2-STABLE") == "11.2-RELEASE"
  {
    assert "11.2-STABLE" == "11.2" + "-" + "STABLE";
    ReleasesAgree("11.2", "STABLE");
    assert "11.2" + "-" + "RELEASE" == "11.2-RELEASE";
  }

  /** The library keeps only `13.1-RELEASE` of `13.1-RELEASE-p2`. */
  lemma LibDropsPatchLevel()
    ensures LibDefaultRelease("13.1-RELEASE-p2") == "13.1-RELEASE"
  {
    assert "13.1-RELEASE-p2" == "13.1" + "-" + "RELEASE" + "-" + "p2";
    LibKeepsTwoPieces("13.1", "RELEASE", "p2");
    assert "13.1" + "-" + "RELEASE" == "13.1-RELEASE";
  }

  /** The command line passes a `-` through when `STABLE` does not follow it. */
  lemma CliStep(version: string, tail: string)
    requires Free(version, '-') && !StartsWith(tail, "STABLE")
    ensures CliDefaultRelease(version + "-" + tail) == version + "-" + CliDefaultRelease(tail)
  {
    var t := "-" + tail;
    assert version + "-" + tail == version + t;
    ReplaceAfter(version, t, Stable, Released);
    assert t[1..] == tail;
    if |t| >= |Stable| {
      assert t[..|Stable|] == ['-'] + tail[..6];
    }
  }

  /** A three-piece release whose later pieces do not begin with `STABLE` is kept by the command line. */
  lemma CliKeepsNonStableTags(version: string, tag: string, patch: string)
    requires Free(version, '-') && Free(tag, '-') && Free(patch, '-')
    requires !StartsWith(tag, "STABLE") && !StartsWith(patch, "STABLE")
    ensures CliDefaultRelease(version + "-" + tag + "-" + patch) == version + "-" + tag + "-" + patch
  {
    assert version + "-" + tag + "-" + patch == version + "-" + (tag + "-" + patch);
    var tail := tag + "-" + patch;
    if |tag| >= 6 {
      assert tail[..6] == tag[..6];
    } else if |tail| >= 6 {
      assert tail[..6][|tag|] == '-';
      assert Free("STABLE", '-');
    }
    CliStep(version, tail);
    CliStep(tag, patch);
    CliReleaseSinglePiece(patch);
  }

  /** The command line keeps `13.1-RELEASE-p2` whole. */
  lemma CliKeepsPatchLevel()
    ensures CliDefaultRelease("13.1-RELEASE-p2") == "13.1-RELEASE-p2"
  {
    assert "13.1-RELEASE-p2" == "13.1" + "-" + "RELEASE" + "-" + "p2";
    assert "RELEASE"[0] != "STABLE"[0];
    CliKeepsNonStableTags("13.1", "RELEASE", "p2");
  }

  /**
   * On a patched release the two differ: the library drops the patch level that the
   * command line keeps.
   */
  lemma PatchedReleaseDiffers()
    ensures LibDefaultRelease("13.1-RELEASE-p2") != CliDefaultRelease("13.1-RELEASE-p2")
  {
    LibDropsPatchLevel();
    CliKeepsPatchLevel();
    assert |"13.1-RELEASE"| != |"13.1-RELEASE-p2"|;
  }
}
