/** The block padding around the AES calls of lib/BlackPearl/common/security.py and
    lib/BlackPearl/core/security.py. The cipher and the base64 coding are not part of this model:
    only the bytes handed to the cipher (`pad`) and the stripping of what it gives back (`rstrip`)
    are. */
module Security {
  import opened Wrappers

  type byte = x: int | 0 <= x < 256

  /** `PADDING = b"{"`. */
  const PaddingByte: byte := 0x7B

  datatype PadError = ZeroDivision   // `len(s) % 0`

  /** Python's `a % b` for `b != 0`: the remainder has the sign of `b`. */
  function PyMod(a: int, b: int): (r: int)
    requires b != 0
    ensures b > 0 ==> 0 <= r < b
    ensures b < 0 ==> b < r <= 0
  {
    if b > 0 then a % b
    else if a % -b == 0 then 0
    else a % -b + b
  }

  /** `n * b"{"`: empty when `n` is not positive. */
  function Fill(n: int): (r: seq<byte>)
    ensures |r| == if n > 0 then n else 0
    ensures forall i :: 0 <= i < |r| ==> r[i] == PaddingByte
    decreases n
  {
    if n <= 0 then [] else Fill(n - 1) + [PaddingByte]
  }

  /** The `pad` lambda of `encrypt`: `s + (BLOCK_SIZE - len(s) % BLOCK_SIZE) * PADDING`. A zero block
      size fails in the `%`. */
  function Pad(s: seq<byte>, blockSize: int): Result<seq<byte>, PadError>
  {
    if blockSize == 0 then Err(ZeroDivision)
    else Ok(s + Fill(blockSize - PyMod(|s|, blockSize)))
  }

  /** `rstrip(PADDING)`: every trailing `{` byte is removed. */
  function Unpad(s: seq<byte>): (r: seq<byte>)
    ensures |r| <= |s| && r == s[..|r|]
    ensures r == [] || r[|r| - 1] != PaddingByte
    ensures forall i :: |r| <= i < |s| ==> s[i] == PaddingByte
  {
    if s == [] || s[|s| - 1] != PaddingByte then s else Unpad(s[..|s| - 1])
  }

  predicate EndsInPadding(s: seq<byte>)
  {
    s != [] && s[|s| - 1] == PaddingByte
  }

  /** For a positive block size, the padded value starts with the input, grows by between one
      and `blockSize` padding bytes, a full block when the input is already aligned, and its
      length is a multiple of the block size. */
  lemma PadShape(s: seq<byte>, blockSize: int)
    requires blockSize > 0
    ensures Pad(s, blockSize).Ok?
    ensures var p := Pad(s, blockSize).value;
      |p| % blockSize == 0 && p[..|s|] == s
      && 1 <= |p| - |s| <= blockSize
      && (|s| % blockSize == 0 ==> |p| - |s| == blockSize)
      && forall i :: |s| <= i < |p| ==> p[i] == PaddingByte
  {
    var m := |s| % blockSize;
    var q := |s| / blockSize;
    var p := s + Fill(blockSize - m);
    assert p[..|s|] == s;
    assert |p| == (q + 1) * blockSize by {
      assert |s| == q * blockSize + m;
    }
    MultipleMod(|p|, q + 1, blockSize);
    forall i | |s| <= i < |p| ensures p[i] == PaddingByte {
      assert p[i] == Fill(blockSize - m)[i - |s|];
    }
  }

  /** A multiple of a positive `b` leaves no remainder. */
  lemma MultipleMod(i: int, d: int, b: int)
    requires b > 0 && i == d * b
    ensures i % b == 0
  {
    var t := d - i / b;
    assert b * t == i % b;
  }

  /** A zero block size makes the padding fail. */
  lemma PadZeroFails(s: seq<byte>)
    ensures Pad(s, 0) == Err(ZeroDivision)
  {
  }

  /** With a negative block size Python's remainder is not positive, so nothing is appended
      and the padded length is in general not aligned. */
  lemma PadNegativeAppendsNothing(s: seq<byte>, blockSize: int)
    requires blockSize < 0
    ensures Pad(s, blockSize) == Ok(s)
  {
    var f := Fill(blockSize - PyMod(|s|, blockSize));
    assert f == [];
    assert s + f == s;
  }

  lemma UnpadAppendedPadding(s: seq<byte>, n: nat)
    requires !EndsInPadding(s)
    ensures Unpad(s + Fill(n)) == s
    decreases n
  {
    if n == 0 {
      assert s + Fill(0) == s;
    } else {
      var t := s + Fill(n);
      assert t[|t| - 1] == PaddingByte;
      assert t[..|t| - 1] == s + Fill(n - 1);
      UnpadAppendedPadding(s, n - 1);
    }
  }

  /** Stripping undoes the padding exactly when the input does not itself end in `{`. */
  lemma UnpadPad(s: seq<byte>, blockSize: int)
    requires blockSize > 0
    ensures Unpad(Pad(s, blockSize).value) == s <==> !EndsInPadding(s)
  {
    var n := blockSize - PyMod(|s|, blockSize);
    if !EndsInPadding(s) {
      UnpadAppendedPadding(s, n);
    }
  }
}

/** lib/BlackPearl/core/security.py: the same padding, with the block size read from the module
    globals that uWSGI start-up is meant to set. */
module CoreSecurity {
  import Wrappers
  import Security

  /** The module globals `BLOCK_SIZE` and `AES_KEY`. */
  datatype Globals = Globals(blockSize: int, aesKey: string)

  /** The values the module starts with. */
  const Initial: Globals := Globals(0, "")

  /** The padding `encrypt` applies under the current globals. */
  function EncryptPad(g: Globals, s: seq<Security.byte>): Wrappers.Result<seq<Security.byte>, Security.PadError>
  {
    Security.Pad(s, g.blockSize)
  }

  /** With the initial `BLOCK_SIZE` of 0, the padding step of `encrypt` would divide by zero.
      This says nothing about `AES.new` with the initial empty key, which runs first. */
  lemma InitialGlobalsFail(s: seq<Security.byte>)
    ensures EncryptPad(Initial, s) == Wrappers.Err(Security.ZeroDivision)
  {
  }

  /** Once a positive block size is set, the padding has the shape of the common module's. */
  lemma EncryptPadAligned(g: Globals, s: seq<Security.byte>)
    requires g.blockSize > 0
    ensures EncryptPad(g, s).Ok?
    ensures |EncryptPad(g, s).value| % g.blockSize == 0
    ensures EncryptPad(g, s).value[..|s|] == s
    ensures 1 <= |EncryptPad(g, s).value| - |s| <= g.blockSize
  {
    Security.PadShape(s, g.blockSize);
  }
}
