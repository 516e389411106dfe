/** Key derivation of the Completion Exchange (services/eap-noob/kdf.go). */
module Kdf {

  type Byte = b: nat | b < 256

  type Bytes = seq<Byte>

  const ALGORITHM_ID: Bytes := [69, 65, 80, 45, 78, 79, 79, 66] // "EAP-NOOB"

  datatype KeyMaterial = KeyMaterial(msk: Bytes, emsk: Bytes, amsk: Bytes, methodId: Bytes,
                                     kms: Bytes, kmp: Bytes, kz: Bytes)

  /** The four-byte big-endian counter; it wraps with the source's 32-bit counter. */
  function Be32(n: nat): Bytes {
    [n / 0x100_0000 % 256, n / 0x1_0000 % 256, n / 0x100 % 256, n % 256]
  }

  /** The number four bytes spell, most significant first. */
  function Number32(b: Bytes): int
    requires |b| == 4
  {
    b[0] as int * 0x100_0000 + b[1] as int * 0x1_0000 + b[2] as int * 0x100 + b[3] as int
  }

  lemma DropByte(n: nat)
    ensures n / 0x1_0000 == n / 0x100 / 256 && n / 0x100_0000 == n / 0x1_0000 / 256
  {
    var c := n / 0x100;
    assert 0x1_0000 * (c / 256) <= n < 0x1_0000 * (c / 256) + 0x1_0000;
    var b := n / 0x1_0000;
    assert 0x100_0000 * (b / 256) <= n < 0x100_0000 * (b / 256) + 0x100_0000;
  }

  lemma Spells(n: nat, a: nat, b: nat, c: nat, bytes: Bytes)
    requires |bytes| == 4 && bytes == [a % 256, b % 256, c % 256, n % 256]
    requires c == n / 256 && b == c / 256 && a == b / 256
    ensures Number32(bytes) == n % 0x1_0000_0000
  {
    var w3, w2, w1, w0 := bytes[0] as int, bytes[1] as int, bytes[2] as int, bytes[3] as int;
    var top := a / 256;
    assert n == 256 * c + w0 && c == 256 * b + w1 && b == 256 * a + w2 && a == 256 * top + w3;
  }

  /** It spells the counter, so different counters below 2^32 give different hash inputs. */
  lemma Be32IsTheCounter(n: nat)
    ensures |Be32(n)| == 4 && Number32(Be32(n)) == n % 0x1_0000_0000
  {
    DropByte(n);
    Spells(n, n / 0x100_0000, n / 0x1_0000, n / 0x100, Be32(n));
  }

  /** Hash blocks 1..n over counter, shared secret and fixed info. */
  function Blocks(hash: Bytes -> Bytes, z: Bytes, fixedInfo: Bytes, n: nat): Bytes {
    if n == 0 then [] else Blocks(hash, z, fixedInfo, n - 1) + hash(Be32(n) + z + fixedInfo)
  }

  ghost predicate Sha256Sized(hash: Bytes -> Bytes) {
    forall x :: |hash(x)| == 32
  }

  lemma {:induction false} BlocksSplit(hash: Bytes -> Bytes, z: Bytes, fixedInfo: Bytes, n: nat)
    requires Sha256Sized(hash)
    ensures |Blocks(hash, z, fixedInfo, n)| == 32 * n
    ensures forall k | 0 <= k < n ::
              Blocks(hash, z, fixedInfo, n)[32 * k..32 * (k + 1)] == hash(Be32(k + 1) + z + fixedInfo)
  {
    if n > 0 {
      BlocksSplit(hash, z, fixedInfo, n - 1);
      var init := Blocks(hash, z, fixedInfo, n - 1);
      forall k | 0 <= k < n
        ensures Blocks(hash, z, fixedInfo, n)[32 * k..32 * (k + 1)] == hash(Be32(k + 1) + z + fixedInfo)
      {
        if k < n - 1 {
          assert Blocks(hash, z, fixedInfo, n)[32 * k..32 * (k + 1)] == init[32 * k..32 * (k + 1)];
        }
      }
    }
  }

  method OneStepKdf(hash: Bytes -> Bytes, z: Bytes, fixedInfo: Bytes, outLen: nat) returns (out: Bytes)
    requires Sha256Sized(hash)
    ensures |out| == outLen && out <= Blocks(hash, z, fixedInfo, (outLen + 31) / 32)
  {
    out := [];
    var counter := 1;
    while |out| < outLen
      invariant counter >= 1 && out == Blocks(hash, z, fixedInfo, counter - 1)
      invariant |out| == 32 * (counter - 1) && counter - 1 <= (outLen + 31) / 32
      decreases outLen - |out|
    {
      out := out + hash(Be32(counter) + z + fixedInfo);
      counter := counter + 1;
    }
    out := out[..outLen];
  }

  function FixedInfo(np: Bytes, ns: Bytes, noob: Bytes): Bytes {
    ALGORITHM_ID + np + ns + [|noob| % 256] + noob
  }

  /**
   * The three authentication keys are three different hash blocks of one secret:
   * counter 8 for Kms, 9 for Kmp, 10 for Kz.
   */
  method DeriveCompletion(hash: Bytes -> Bytes, z: Bytes, np: Bytes, ns: Bytes, noob: Bytes) returns (k: KeyMaterial)
    requires Sha256Sized(hash)
    ensures k.msk + k.emsk + k.amsk + k.methodId == Blocks(hash, z, FixedInfo(np, ns, noob), 7)
    ensures k.kms == hash(Be32(8) + z + FixedInfo(np, ns, noob))
    ensures k.kmp == hash(Be32(9) + z + FixedInfo(np, ns, noob))
    ensures k.kz == hash(Be32(10) + z + FixedInfo(np, ns, noob))
    ensures |k.msk| == 64 && |k.emsk| == 64 && |k.amsk| == 64 && |k.methodId| == 32
  {
    var info := FixedInfo(np, ns, noob);
    var out := OneStepKdf(hash, z, info, 320);
    assert out == Blocks(hash, z, info, 10) by { BlocksSplit(hash, z, info, 10); }
    k := KeyMaterial(out[0..64], out[64..128], out[128..192], out[192..224], out[224..256], out[256..288],
                     out[288..320]);
    SevenThen(hash, z, info);
  }

  lemma SevenThen(hash: Bytes -> Bytes, z: Bytes, info: Bytes)
    requires Sha256Sized(hash)
    ensures var out := Blocks(hash, z, info, 10);
            && |out| == 320
            && out[0..64] + out[64..128] + out[128..192] + out[192..224] == Blocks(hash, z, info, 7)
            && out[224..256] == hash(Be32(8) + z + info)
            && out[256..288] == hash(Be32(9) + z + info)
            && out[288..320] == hash(Be32(10) + z + info)
  {
    BlocksSplit(hash, z, info, 7);
    BlocksSplit(hash, z, info, 8);
    BlocksSplit(hash, z, info, 9);
    BlocksSplit(hash, z, info, 10);
    var b7, b8, b9, out :=
      Blocks(hash, z, info, 7), Blocks(hash, z, info, 8), Blocks(hash, z, info, 9), Blocks(hash, z, info, 10);
    assert out == b7 + hash(Be32(8) + z + info) + hash(Be32(9) + z + info) + hash(Be32(10) + z + info);
    assert out[..224] == b7 && out[0..64] + out[64..128] + out[128..192] + out[192..224] == out[..224];
  }

  /**
   * With the source's 16-byte Noob, the fixed info pins both nonces and the Noob
   * exactly when the peer nonces have the same length; nothing separates Np from Ns.
   */
  lemma FixedInfoInjective(np: Bytes, ns: Bytes, noob: Bytes, np': Bytes, ns': Bytes, noob': Bytes)
    requires |noob| == |noob'| == 16
    requires FixedInfo(np, ns, noob) == FixedInfo(np', ns', noob')
    ensures noob == noob' && np + ns == np' + ns'
    ensures (np == np' && ns == ns') <==> |np| == |np'|
  {
    var a, b := FixedInfo(np, ns, noob), FixedInfo(np', ns', noob');
    var n := |a| - 17;
    assert a[n + 1..] == noob && b[n + 1..] == noob';
    assert a[8..n] == np + ns && b[8..n] == np' + ns';
    if |np| == |np'| {
      assert np == (np + ns)[..|np|] && np' == (np' + ns')[..|np'|];
      assert ns == (np + ns)[|np|..] && ns' == (np' + ns')[|np'|..];
    }
  }
}
