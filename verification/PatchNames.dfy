/** Names of the two ends of a patch link. */
module PatchNames {
  import opened Types
  import Base62

  const IFNAME_LIMIT := 15

  /** A checksum of a bridge name; CRC-32 in the driver, any 32-bit hash here. */
  ghost predicate IsHash(hash: string -> nat) {
    forall s :: hash(s) < 0x1_0000_0000
  }

  function PatchStr(hash: string -> nat, name: string): string {
    Base62.Encode(hash(name))
  }

  /** None is the panic on a name that is too long for an interface. */
  function PatchName(hash: string -> nat, a: string, b: string): Option<string> {
    var name := PATCH_PREFIX + PatchStr(hash, a) + PatchStr(hash, b);
    if |name| > IFNAME_LIMIT then None else Some(name)
  }

  /** The panic cannot happen. */
  lemma PatchNameFits(hash: string -> nat, a: string, b: string)
    requires IsHash(hash)
    ensures PatchName(hash, a, b) == Some(PATCH_PREFIX + PatchStr(hash, a) + PatchStr(hash, b))
  {
    Base62.EncodeTheorem(hash(a));
    Base62.EncodeTheorem(hash(b));
  }

  // -------------------------------------------------------------------------------------
  // When do the two ends get the same name?

  function Repeat(w: string, k: nat): string {
    if k == 0 then "" else w + Repeat(w, k - 1)
  }

  ghost predicate PowersOf(w: string, x: string, y: string) {
    (exists i: nat :: x == Repeat(w, i)) && (exists j: nat :: y == Repeat(w, j))
  }

  ghost predicate CommonRoot(x: string, y: string) {
    exists w :: PowersOf(w, x, y)
  }

  lemma {:induction false} RepeatAdd(w: string, i: nat, j: nat)
    ensures Repeat(w, i) + Repeat(w, j) == Repeat(w, i + j)
  {
    if i > 0 {
      RepeatAdd(w, i - 1, j);
      assert Repeat(w, i) + Repeat(w, j) == w + (Repeat(w, i - 1) + Repeat(w, j));
    }
  }

  /** Two words commute exactly when they are powers of a common word. */
  lemma {:induction false} CommuteRoot(x: string, y: string)
    requires x + y == y + x
    ensures CommonRoot(x, y)
    decreases |x| + |y|
  {
    if x == "" || y == "" {
      var w := x + y;
      assert Repeat(w, 0) == "" && Repeat(w, 1) == w + Repeat(w, 0) == w;
      assert x == Repeat(w, if x == "" then 0 else 1);
      assert y == Repeat(w, if y == "" then 0 else 1);
      assert PowersOf(w, x, y);
    } else if |x| <= |y| {
      PeelOff(x, y);
    } else {
      PeelOff(y, x);
      var w :| PowersOf(w, y, x);
      assert PowersOf(w, x, y);
    }
  }

  lemma {:induction false} PeelOff(x: string, y: string)
    requires x + y == y + x && x != "" && |x| <= |y|
    ensures CommonRoot(x, y)
    decreases |x| + |y|, 0
  {
    var z := y[|x|..];
    assert y[..|x|] == (y + x)[..|x|] == (x + y)[..|x|] == x;
    assert y == x + z;
    assert z + x == (y + x)[|x|..] == (x + y)[|x|..] == y;
    CommuteRoot(x, z);
    var w :| PowersOf(w, x, z);
    var i: nat :| x == Repeat(w, i);
    var j: nat :| z == Repeat(w, j);
    RepeatAdd(w, i, j);
    assert PowersOf(w, x, y);
  }

  lemma RootCommutes(x: string, y: string)
    requires CommonRoot(x, y)
    ensures x + y == y + x
  {
    var w :| PowersOf(w, x, y);
    var i: nat :| x == Repeat(w, i);
    var j: nat :| y == Repeat(w, j);
    RepeatAdd(w, i, j);
    RepeatAdd(w, j, i);
  }

  /** The ends of a link clash exactly when the two encoded hashes are powers of one word. */
  lemma EndsClashIff(hash: string -> nat, a: string, b: string)
    requires IsHash(hash)
    ensures PatchName(hash, a, b) == PatchName(hash, b, a) <==> CommonRoot(PatchStr(hash, a), PatchStr(hash, b))
  {
    PatchNameFits(hash, a, b);
    PatchNameFits(hash, b, a);
    var x, y := PatchStr(hash, a), PatchStr(hash, b);
    assert (PATCH_PREFIX + x + y)[3..] == x + y && (PATCH_PREFIX + y + x)[3..] == y + x;
    if x + y == y + x {
      CommuteRoot(x, y);
      assert PATCH_PREFIX + x + y == PATCH_PREFIX + (x + y) && PATCH_PREFIX + y + x == PATCH_PREFIX + (y + x);
    }
    if CommonRoot(x, y) {
      RootCommutes(x, y);
    }
  }

  /** In particular the ends differ whenever the hashes differ and encode to the same length. */
  lemma EndsDiffer(hash: string -> nat, a: string, b: string)
    requires IsHash(hash) && hash(a) != hash(b) && |PatchStr(hash, a)| == |PatchStr(hash, b)|
    ensures PatchName(hash, a, b) != PatchName(hash, b, a)
  {
    PatchNameFits(hash, a, b);
    PatchNameFits(hash, b, a);
    Base62.EncodeTheorem(hash(a));
    Base62.EncodeTheorem(hash(b));
    var x, y := PatchStr(hash, a), PatchStr(hash, b);
    var n := |x|;
    assert (PATCH_PREFIX + x + y)[3..3 + n] == x && (PATCH_PREFIX + y + x)[3..3 + n] == y;
  }

  /** A clash needs no equal hashes: encodings "1" and "11" are enough. */
  lemma ClashExample()
    ensures Base62.Encode(1) == "1" && Base62.Encode(63) == "11" && CommonRoot("1", "11")
  {
    assert Base62.Digits(1) == Base62.Digits(0) + [Base62.Digit(1)];
    assert Base62.Digits(63) == Base62.Digits(1) + [Base62.Digit(1)];
    assert Repeat("1", 0) == "" && Repeat("1", 1) == "1" + Repeat("1", 0) && Repeat("1", 2) == "1" + Repeat("1", 1);
    assert PowersOf("1", "1", "11");
  }
}
