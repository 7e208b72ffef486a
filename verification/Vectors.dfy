/**
 * Known answers: the two digests that `cdc512_test` expects, and what an empty input gives, worked
 * out from the definitions. A wrong shift, constant, byte order or dash anywhere would change them.
 */
module Vectors {
  import opened Common
  import opened Mixing
  import opened Shuffles
  import opened Cdc512

  // ---------------------------------------------------------------- the input of the test

  /** Eight bytes counting up from `x`. */
  function Run(x: bv8): (run: Bytes)
    ensures |run| == 8
  {
    [x, x + 1, x + 2, x + 3, x + 4, x + 5, x + 6, x + 7]
  }

  predicate EightRuns(r: seq<Bytes>) {
    |r| == 8 && forall k :: 0 <= k < 8 ==> |r[k]| == 8
  }

  function Glued(r: seq<Bytes>): (chunk: Bytes)
    requires EightRuns(r)
    ensures |chunk| == CHUNK
  {
    r[0] + r[1] + r[2] + r[3] + r[4] + r[5] + r[6] + r[7]
  }

  /** The chunk of 64 bytes counting up from `x`. */
  function Counting(x: bv8): (r: seq<Bytes>)
    ensures EightRuns(r)
  {
    [Run(x), Run(x + 8), Run(x + 16), Run(x + 24), Run(x + 32), Run(x + 40), Run(x + 48), Run(x + 56)]
  }

  /** The first chunk, with byte 3 as given. */
  function FirstChunk(third: bv8): (r: seq<Bytes>)
    ensures EightRuns(r)
  {
    [[0, 1, 2, third, 4, 5, 6, 7], Run(8), Run(16), Run(24), Run(32), Run(40), Run(48), Run(56)]
  }

  function Tail(): (tail: Bytes)
    ensures |tail| == 48
  {
    Run(192) + Run(200) + Run(208) + Run(216) + Run(224) + Run(232)
  }

  /** The array `t` of the test: the bytes 0, 1, ..., 239, with byte 3 as given. */
  function TestData(third: bv8): Bytes {
    Glued(FirstChunk(third)) + (Glued(Counting(64)) + (Glued(Counting(128)) + Tail()))
  }

  lemma GluedAt(r: seq<Bytes>, i: nat)
    requires EightRuns(r) && i < 8
    ensures Glued(r)[8 * i..8 * i + 8] == r[i]
  {
  }

  lemma GluedLoaded(r: seq<Bytes>)
    requires EightRuns(r)
    ensures LoadWords(Glued(r)) == [Load(r[0]), Load(r[1]), Load(r[2]), Load(r[3]), Load(r[4]), Load(r[5]), Load(r[6]), Load(r[7])]
  {
    hide Load; hide Glued;
    GluedAt(r, 0);
    GluedAt(r, 1);
    GluedAt(r, 2);
    GluedAt(r, 3);
    GluedAt(r, 4);
    GluedAt(r, 5);
    GluedAt(r, 6);
    GluedAt(r, 7);
  }

  lemma RunLoaded(x: bv8)
    requires x <= 0xF8
    ensures Load(Run(x)) == 0x0706050403020100 + 0x0101010101010101 * (x as bv64)
  {
  }

  lemma TailPadded()
    ensures Tail() + Zeros(16) == Glued([Run(192), Run(200), Run(208), Run(216), Run(224), Run(232), Zeros(8), Zeros(8)])
  {
    hide Run;
    assert Zeros(16) == Zeros(8) + Zeros(8);
  }

  // ---------------------------------------------------------------- its chunks as words

  lemma FirstWords()
    ensures LoadWords(Glued(FirstChunk(3))) ==
              [0x0706050403020100, 0x0F0E0D0C0B0A0908, 0x1716151413121110, 0x1F1E1D1C1B1A1918,
               0x2726252423222120, 0x2F2E2D2C2B2A2928, 0x3736353433323130, 0x3F3E3D3C3B3A3938]
  {
    hide LoadWords; hide Glued;
    GluedLoaded(FirstChunk(3));
    assert Load([0, 1, 2, 3, 4, 5, 6, 7]) == 0x0706050403020100;
  }

  lemma FlippedWords()
    ensures LoadWords(Glued(FirstChunk(3 ^ 0x40))) ==
              [0x0706050443020100, 0x0F0E0D0C0B0A0908, 0x1716151413121110, 0x1F1E1D1C1B1A1918,
               0x2726252423222120, 0x2F2E2D2C2B2A2928, 0x3736353433323130, 0x3F3E3D3C3B3A3938]
  {
    hide LoadWords; hide Glued;
    GluedLoaded(FirstChunk(3 ^ 0x40));
    assert Load([0, 1, 2, 0x43, 4, 5, 6, 7]) == 0x0706050443020100;
  }

  lemma SecondWords()
    ensures LoadWords(Glued(Counting(64))) ==
              [0x4746454443424140, 0x4F4E4D4C4B4A4948, 0x5756555453525150, 0x5F5E5D5C5B5A5958,
               0x6766656463626160, 0x6F6E6D6C6B6A6968, 0x7776757473727170, 0x7F7E7D7C7B7A7978]
  {
    hide LoadWords; hide Glued;
    GluedLoaded(Counting(64));
  }

  lemma ThirdWords()
    ensures LoadWords(Glued(Counting(128))) ==
              [0x8786858483828180, 0x8F8E8D8C8B8A8988, 0x9796959493929190, 0x9F9E9D9C9B9A9998,
               0xA7A6A5A4A3A2A1A0, 0xAFAEADACABAAA9A8, 0xB7B6B5B4B3B2B1B0, 0xBFBEBDBCBBBAB9B8]
  {
    hide LoadWords; hide Glued;
    GluedLoaded(Counting(128));
  }

  lemma TailWords()
    ensures LoadWords(Tail() + Zeros(16)) ==
              [0xC7C6C5C4C3C2C1C0, 0xCFCECDCCCBCAC9C8, 0xD7D6D5D4D3D2D1D0, 0xDFDEDDDCDBDAD9D8,
               0xE7E6E5E4E3E2E1E0, 0xEFEEEDECEBEAE9E8, 0x0000000000000000, 0x0000000000000000]
  {
    hide LoadWords; hide Glued;
    TailPadded();
    var r := [Run(192), Run(200), Run(208), Run(216), Run(224), Run(232), Zeros(8), Zeros(8)];
    GluedLoaded(r);
  }

  lemma CountIs(n: nat)
    requires n == 240
    ensures CountWords(n) == [240, 240, 240, 240, 240, 240, 240, 240]
  {
  }

  // ---------------------------------------------------------------- the chunks taken in

  lemma Mixed(a: bv64, b: bv64, c: bv64, d: bv64, e: bv64, f: bv64, g: bv64, h: bv64)
    ensures Mix([a, b, c, d, e, f, g, h], 8) == Shuffled(a, b, c, d, e, f, g, h)
  {
    hide Mix; hide Shuffled;
    MixIs([a, b, c, d, e, f, g, h]);
  }

  lemma MixedWith(a: bv64, b: bv64, c: bv64, d: bv64, e: bv64, f: bv64, g: bv64, h: bv64, v: Words)
    ensures MixWith([a, b, c, d, e, f, g, h], v, 8) == ShuffledWith(a, b, c, d, e, f, g, h, v)
  {
    hide MixWith; hide ShuffledWith;
    MixWithIs([a, b, c, d, e, f, g, h], v);
  }

  lemma FirstTest0Mixed()
    ensures ShuffledWith(0xFCF1445B4A5240A6, 0x7EBBF005970535C5, 0x26A66E6BCF76EDC8, 0x9EA54E258E1E1D53,
                         0x802A6EE4F3E70F8C, 0xF8A7E3D11FF4531C, 0x3533C3A1AADED408, 0x11B0E9FB8029594C,
                         [0x0706050403020100, 0x0F0E0D0C0B0A0908, 0x1716151413121110, 0x1F1E1D1C1B1A1918,
                          0x2726252423222120, 0x2F2E2D2C2B2A2928, 0x3736353433323130, 0x3F3E3D3C3B3A3938]) ==
              [0xEE5325CA3AB2288E, 0x66A3AB950A9D71C5, 0x5CCC6471A55ED5B0, 0x868D219A609010AE,
               0x251F9BC1904337B4, 0x20E0A4F7AA11F628, 0x6161F3CFD704FC30, 0xF998D1C584172942]
    ensures Shuffled(0xEE5325CA3AB2288E, 0x66A3AB950A9D71C5, 0x5CCC6471A55ED5B0, 0x868D219A609010AE,
                     0x251F9BC1904337B4, 0x20E0A4F7AA11F628, 0x6161F3CFD704FC30, 0xF998D1C584172942) ==
              [0x4FD181C2AAF864E3, 0x9C5ECBCF452203B9, 0x85F91C83F615AC8F, 0x990EA249EBBEF038,
               0x680E73FD0E148CD4, 0x04BA62E7188195A4, 0xAA3A7F0F49149D08, 0x29BDB8F834450167]
  {
  }

  lemma FirstTest0()
    ensures Absorb([0xFCF1445B4A5240A6, 0x7EBBF005970535C5, 0x26A66E6BCF76EDC8, 0x9EA54E258E1E1D53,
                    0x802A6EE4F3E70F8C, 0xF8A7E3D11FF4531C, 0x3533C3A1AADED408, 0x11B0E9FB8029594C],
                   [0x0706050403020100, 0x0F0E0D0C0B0A0908, 0x1716151413121110, 0x1F1E1D1C1B1A1918,
                    0x2726252423222120, 0x2F2E2D2C2B2A2928, 0x3736353433323130, 0x3F3E3D3C3B3A3938]) ==
              [0x4FD181C2AAF864E3, 0x9C5ECBCF452203B9, 0x85F91C83F615AC8F, 0x990EA249EBBEF038,
               0x680E73FD0E148CD4, 0x04BA62E7188195A4, 0xAA3A7F0F49149D08, 0x29BDB8F834450167]
  {
    hide Mix; hide MixWith; hide Shuffled; hide ShuffledWith;
    MixedWith(0xFCF1445B4A5240A6, 0x7EBBF005970535C5, 0x26A66E6BCF76EDC8, 0x9EA54E258E1E1D53,
              0x802A6EE4F3E70F8C, 0xF8A7E3D11FF4531C, 0x3533C3A1AADED408, 0x11B0E9FB8029594C,
              [0x0706050403020100, 0x0F0E0D0C0B0A0908, 0x1716151413121110, 0x1F1E1D1C1B1A1918,
               0x2726252423222120, 0x2F2E2D2C2B2A2928, 0x3736353433323130, 0x3F3E3D3C3B3A3938]);
    Mixed(0xEE5325CA3AB2288E, 0x66A3AB950A9D71C5, 0x5CCC6471A55ED5B0, 0x868D219A609010AE,
          0x251F9BC1904337B4, 0x20E0A4F7AA11F628, 0x6161F3CFD704FC30, 0xF998D1C584172942);
    FirstTest0Mixed();
  }

  lemma FirstTest1Mixed()
    ensures ShuffledWith(0x4FD181C2AAF864E3, 0x9C5ECBCF452203B9, 0x85F91C83F615AC8F, 0x990EA249EBBEF038,
                         0x680E73FD0E148CD4, 0x04BA62E7188195A4, 0xAA3A7F0F49149D08, 0x29BDB8F834450167,
                         [0x4746454443424140, 0x4F4E4D4C4B4A4948, 0x5756555453525150, 0x5F5E5D5C5B5A5958,
                          0x6766656463626160, 0x6F6E6D6C6B6A6968, 0x7776757473727170, 0x7F7E7D7C7B7A7978]) ==
              [0x1D134003BA484CCB, 0x8447CECE587886C8, 0x3BA7324DCBFD9477, 0x80F6BD86E510ED95,
               0x0D6B80F9AA60B4FC, 0x2CAE0601CEE450C0, 0x4ED91FB1F5BE4530, 0x11A5A1468FC380D9]
    ensures Shuffled(0x1D134003BA484CCB, 0x8447CECE587886C8, 0x3BA7324DCBFD9477, 0x80F6BD86E510ED95,
                     0x0D6B80F9AA60B4FC, 0x2CAE0601CEE450C0, 0x4ED91FB1F5BE4530, 0x11A5A1468FC380D9) ==
              [0x740771B3261FED97, 0x91A05E390E5C95EF, 0x6DC1C72AEE73C55F, 0xF90D264EB1B4FCDE,
               0x654A56D966F3A276, 0x2EEBBB1BAB6530E2, 0xBC257F3478C1FA70, 0x28403AB12CA3E49F]
  {
  }

  lemma FirstTest1()
    ensures Absorb([0x4FD181C2AAF864E3, 0x9C5ECBCF452203B9, 0x85F91C83F615AC8F, 0x990EA249EBBEF038,
                    0x680E73FD0E148CD4, 0x04BA62E7188195A4, 0xAA3A7F0F49149D08, 0x29BDB8F834450167],
                   [0x4746454443424140, 0x4F4E4D4C4B4A4948, 0x5756555453525150, 0x5F5E5D5C5B5A5958,
                    0x6766656463626160, 0x6F6E6D6C6B6A6968, 0x7776757473727170, 0x7F7E7D7C7B7A7978]) ==
              [0x740771B3261FED97, 0x91A05E390E5C95EF, 0x6DC1C72AEE73C55F, 0xF90D264EB1B4FCDE,
               0x654A56D966F3A276, 0x2EEBBB1BAB6530E2, 0xBC257F3478C1FA70, 0x28403AB12CA3E49F]
  {
    hide Mix; hide MixWith; hide Shuffled; hide ShuffledWith;
    MixedWith(0x4FD181C2AAF864E3, 0x9C5ECBCF452203B9, 0x85F91C83F615AC8F, 0x990EA249EBBEF038,
              0x680E73FD0E148CD4, 0x04BA62E7188195A4, 0xAA3A7F0F49149D08, 0x29BDB8F834450167,
              [0x4746454443424140, 0x4F4E4D4C4B4A4948, 0x5756555453525150, 0x5F5E5D5C5B5A5958,
               0x6766656463626160, 0x6F6E6D6C6B6A6968, 0x7776757473727170, 0x7F7E7D7C7B7A7978]);
    Mixed(0x1D134003BA484CCB, 0x8447CECE587886C8, 0x3BA7324DCBFD9477, 0x80F6BD86E510ED95,
          0x0D6B80F9AA60B4FC, 0x2CAE0601CEE450C0, 0x4ED91FB1F5BE4530, 0x11A5A1468FC380D9);
    FirstTest1Mixed();
  }

  lemma FirstTest2Mixed()
    ensures ShuffledWith(0x740771B3261FED97, 0x91A05E390E5C95EF, 0x6DC1C72AEE73C55F, 0xF90D264EB1B4FCDE,
                         0x654A56D966F3A276, 0x2EEBBB1BAB6530E2, 0xBC257F3478C1FA70, 0x28403AB12CA3E49F,
                         [0x8786858483828180, 0x8F8E8D8C8B8A8988, 0x9796959493929190, 0x9F9E9D9C9B9A9998,
                          0xA7A6A5A4A3A2A1A0, 0xAFAEADACABAAA9A8, 0xB7B6B5B4B3B2B1B0, 0xBFBEBDBCBBBAB9B8]) ==
              [0x1125105246CFD57F, 0x798A385A803613BD, 0x0FE39538CC5BAD47, 0xE0F559E1CF4AB113,
               0x201F53ED2377CA9E, 0x56DC8C6D9D6115E6, 0xD9569E5BA5EB2298, 0x1028238E11A2E570]
    ensures Shuffled(0x1125105246CFD57F, 0x798A385A803613BD, 0x0FE39538CC5BAD47, 0xE0F559E1CF4AB113,
                     0x201F53ED2377CA9E, 0x56DC8C6D9D6115E6, 0xD9569E5BA5EB2298, 0x1028238E11A2E570) ==
              [0xB336876D2F73DA0A, 0x60699FE43484A5CD, 0xDA83FB782CA231A8, 0x4CB03D9E1FC5477F,
               0xF57AFF4F32550F5B, 0xEE15513D0F41CDB7, 0xAC27FABD295CB38B, 0xB47DA2184000049B]
  {
  }

  lemma FirstTest2()
    ensures Absorb([0x740771B3261FED97, 0x91A05E390E5C95EF, 0x6DC1C72AEE73C55F, 0xF90D264EB1B4FCDE,
                    0x654A56D966F3A276, 0x2EEBBB1BAB6530E2, 0xBC257F3478C1FA70, 0x28403AB12CA3E49F],
                   [0x8786858483828180, 0x8F8E8D8C8B8A8988, 0x9796959493929190, 0x9F9E9D9C9B9A9998,
                    0xA7A6A5A4A3A2A1A0, 0xAFAEADACABAAA9A8, 0xB7B6B5B4B3B2B1B0, 0xBFBEBDBCBBBAB9B8]) ==
              [0xB336876D2F73DA0A, 0x60699FE43484A5CD, 0xDA83FB782CA231A8, 0x4CB03D9E1FC5477F,
               0xF57AFF4F32550F5B, 0xEE15513D0F41CDB7, 0xAC27FABD295CB38B, 0xB47DA2184000049B]
  {
    hide Mix; hide MixWith; hide Shuffled; hide ShuffledWith;
    MixedWith(0x740771B3261FED97, 0x91A05E390E5C95EF, 0x6DC1C72AEE73C55F, 0xF90D264EB1B4FCDE,
              0x654A56D966F3A276, 0x2EEBBB1BAB6530E2, 0xBC257F3478C1FA70, 0x28403AB12CA3E49F,
              [0x8786858483828180, 0x8F8E8D8C8B8A8988, 0x9796959493929190, 0x9F9E9D9C9B9A9998,
               0xA7A6A5A4A3A2A1A0, 0xAFAEADACABAAA9A8, 0xB7B6B5B4B3B2B1B0, 0xBFBEBDBCBBBAB9B8]);
    Mixed(0x1125105246CFD57F, 0x798A385A803613BD, 0x0FE39538CC5BAD47, 0xE0F559E1CF4AB113,
          0x201F53ED2377CA9E, 0x56DC8C6D9D6115E6, 0xD9569E5BA5EB2298, 0x1028238E11A2E570);
    FirstTest2Mixed();
  }

  lemma FirstTest3Mixed()
    ensures ShuffledWith(0xB336876D2F73DA0A, 0x60699FE43484A5CD, 0xDA83FB782CA231A8, 0x4CB03D9E1FC5477F,
                         0xF57AFF4F32550F5B, 0xEE15513D0F41CDB7, 0xAC27FABD295CB38B, 0xB47DA2184000049B,
                         [0xC7C6C5C4C3C2C1C0, 0xCFCECDCCCBCAC9C8, 0xD7D6D5D4D3D2D1D0, 0xDFDEDDDCDBDAD9D8,
                          0xE7E6E5E4E3E2E1E0, 0xEFEEEDECEBEAE9E8, 0x0000000000000000, 0x0000000000000000]) ==
              [0xF1F406BC7FB3C1F2, 0x4852F8B76B1FE2DE, 0xE42CE77B167D0B80, 0x34975474755E5CAA,
               0x1DA327775A7D3783, 0x1E468370437703EF, 0x49D59D65D90C61BB, 0x9C658865C27E85F4]
    ensures Shuffled(0xF1F406BC7FB3C1F2, 0x4852F8B76B1FE2DE, 0xE42CE77B167D0B80, 0x34975474755E5CAA,
                     0x1DA327775A7D3783, 0x1E468370437703EF, 0x49D59D65D90C61BB, 0x9C658865C27E85F4) ==
              [0x16BE977A3B22B0A0, 0x260F18CDEA35F97B, 0x407349690AB792DF, 0xCAC5078FED0E8E4D,
               0x0DAF82BBED8DCA15, 0x9FF166AD30C1700E, 0x4DE92E352F8DB41F, 0xA5F1606E862C8743]
  {
  }

  lemma FirstTest3()
    ensures Absorb([0xB336876D2F73DA0A, 0x60699FE43484A5CD, 0xDA83FB782CA231A8, 0x4CB03D9E1FC5477F,
                    0xF57AFF4F32550F5B, 0xEE15513D0F41CDB7, 0xAC27FABD295CB38B, 0xB47DA2184000049B],
                   [0xC7C6C5C4C3C2C1C0, 0xCFCECDCCCBCAC9C8, 0xD7D6D5D4D3D2D1D0, 0xDFDEDDDCDBDAD9D8,
                    0xE7E6E5E4E3E2E1E0, 0xEFEEEDECEBEAE9E8, 0x0000000000000000, 0x0000000000000000]) ==
              [0x16BE977A3B22B0A0, 0x260F18CDEA35F97B, 0x407349690AB792DF, 0xCAC5078FED0E8E4D,
               0x0DAF82BBED8DCA15, 0x9FF166AD30C1700E, 0x4DE92E352F8DB41F, 0xA5F1606E862C8743]
  {
    hide Mix; hide MixWith; hide Shuffled; hide ShuffledWith;
    MixedWith(0xB336876D2F73DA0A, 0x60699FE43484A5CD, 0xDA83FB782CA231A8, 0x4CB03D9E1FC5477F,
              0xF57AFF4F32550F5B, 0xEE15513D0F41CDB7, 0xAC27FABD295CB38B, 0xB47DA2184000049B,
              [0xC7C6C5C4C3C2C1C0, 0xCFCECDCCCBCAC9C8, 0xD7D6D5D4D3D2D1D0, 0xDFDEDDDCDBDAD9D8,
               0xE7E6E5E4E3E2E1E0, 0xEFEEEDECEBEAE9E8, 0x0000000000000000, 0x0000000000000000]);
    Mixed(0xF1F406BC7FB3C1F2, 0x4852F8B76B1FE2DE, 0xE42CE77B167D0B80, 0x34975474755E5CAA,
          0x1DA327775A7D3783, 0x1E468370437703EF, 0x49D59D65D90C61BB, 0x9C658865C27E85F4);
    FirstTest3Mixed();
  }

  lemma FirstTest4Mixed()
    ensures ShuffledWith(0x16BE977A3B22B0A0, 0x260F18CDEA35F97B, 0x407349690AB792DF, 0xCAC5078FED0E8E4D,
                         0x0DAF82BBED8DCA15, 0x9FF166AD30C1700E, 0x4DE92E352F8DB41F, 0xA5F1606E862C8743,
                         [0x00000000000000F0, 0x00000000000000F0, 0x00000000000000F0, 0x00000000000000F0,
                          0x00000000000000F0, 0x00000000000000F0, 0x00000000000000F0, 0x00000000000000F0]) ==
              [0x16BE977A3B5AB0A0, 0x260F18CDEA35F97B, 0x4073496905B792DF, 0xCAC5078FED0E8E4D,
               0x0DAF82BBEDB1CA15, 0x9FF166AD30C1700E, 0x4DE92E352F8C541F, 0xA5F1606E862C8743]
    ensures Shuffled(0x16BE977A3B5AB0A0, 0x260F18CDEA35F97B, 0x4073496905B792DF, 0xCAC5078FED0E8E4D,
                     0x0DAF82BBEDB1CA15, 0x9FF166AD30C1700E, 0x4DE92E352F8C541F, 0xA5F1606E862C8743) ==
              [0xF427CCD4183C79B9, 0x731E1E7927967C54, 0x560ADD7F6AA4D302, 0x354C5F1502B23D6B,
               0x1B46F16CAEA67A55, 0x2A3AF4D2F3885916, 0x77698A3A160A3DBD, 0x79B4150B026DCEA0]
  {
  }

  lemma FirstTest4()
    ensures Absorb([0x16BE977A3B22B0A0, 0x260F18CDEA35F97B, 0x407349690AB792DF, 0xCAC5078FED0E8E4D,
                    0x0DAF82BBED8DCA15, 0x9FF166AD30C1700E, 0x4DE92E352F8DB41F, 0xA5F1606E862C8743],
                   [0x00000000000000F0, 0x00000000000000F0, 0x00000000000000F0, 0x00000000000000F0,
                    0x00000000000000F0, 0x00000000000000F0, 0x00000000000000F0, 0x00000000000000F0]) ==
              [0xF427CCD4183C79B9, 0x731E1E7927967C54, 0x560ADD7F6AA4D302, 0x354C5F1502B23D6B,
               0x1B46F16CAEA67A55, 0x2A3AF4D2F3885916, 0x77698A3A160A3DBD, 0x79B4150B026DCEA0]
  {
    hide Mix; hide MixWith; hide Shuffled; hide ShuffledWith;
    MixedWith(0x16BE977A3B22B0A0, 0x260F18CDEA35F97B, 0x407349690AB792DF, 0xCAC5078FED0E8E4D,
              0x0DAF82BBED8DCA15, 0x9FF166AD30C1700E, 0x4DE92E352F8DB41F, 0xA5F1606E862C8743,
              [0x00000000000000F0, 0x00000000000000F0, 0x00000000000000F0, 0x00000000000000F0,
               0x00000000000000F0, 0x00000000000000F0, 0x00000000000000F0, 0x00000000000000F0]);
    Mixed(0x16BE977A3B5AB0A0, 0x260F18CDEA35F97B, 0x4073496905B792DF, 0xCAC5078FED0E8E4D,
          0x0DAF82BBEDB1CA15, 0x9FF166AD30C1700E, 0x4DE92E352F8C541F, 0xA5F1606E862C8743);
    FirstTest4Mixed();
  }

  lemma SecondTest0Mixed()
    ensures ShuffledWith(0xFCF1445B4A5240A6, 0x7EBBF005970535C5, 0x26A66E6BCF76EDC8, 0x9EA54E258E1E1D53,
                         0x802A6EE4F3E70F8C, 0xF8A7E3D11FF4531C, 0x3533C3A1AADED408, 0x11B0E9FB8029594C,
                         [0x0706050443020100, 0x0F0E0D0C0B0A0908, 0x1716151413121110, 0x1F1E1D1C1B1A1918,
                          0x2726252423222120, 0x2F2E2D2C2B2A2928, 0x3736353433323130, 0x3F3E3D3C3B3A3938]) ==
              [0xEE5325CA3AB2288E, 0x66A3AB950A9D71C5, 0x5CCC6471A55ED5B0, 0x868D219A609010AE,
               0x251F9BC0504337B4, 0x20E0A4F7AA11F628, 0x6161F34FD704FC30, 0xF998D1C5C4172942]
    ensures Shuffled(0xEE5325CA3AB2288E, 0x66A3AB950A9D71C5, 0x5CCC6471A55ED5B0, 0x868D219A609010AE,
                     0x251F9BC0504337B4, 0x20E0A4F7AA11F628, 0x6161F34FD704FC30, 0xF998D1C5C4172942) ==
              [0x4ED181C36AD864E3, 0x9C5EC9CF457803B9, 0x85D91C807615AC8F, 0x9A0EA24D6A9EF05D,
               0x6B8D1DFF0E0E8CD4, 0x04DA62EA984B95A4, 0xA95A7D10CA349CE3, 0x28BDB8F635650142]
  {
  }

  lemma SecondTest0()
    ensures Absorb([0xFCF1445B4A5240A6, 0x7EBBF005970535C5, 0x26A66E6BCF76EDC8, 0x9EA54E258E1E1D53,
                    0x802A6EE4F3E70F8C, 0xF8A7E3D11FF4531C, 0x3533C3A1AADED408, 0x11B0E9FB8029594C],
                   [0x0706050443020100, 0x0F0E0D0C0B0A0908, 0x1716151413121110, 0x1F1E1D1C1B1A1918,
                    0x2726252423222120, 0x2F2E2D2C2B2A2928, 0x3736353433323130, 0x3F3E3D3C3B3A3938]) ==
              [0x4ED181C36AD864E3, 0x9C5EC9CF457803B9, 0x85D91C807615AC8F, 0x9A0EA24D6A9EF05D,
               0x6B8D1DFF0E0E8CD4, 0x04DA62EA984B95A4, 0xA95A7D10CA349CE3, 0x28BDB8F635650142]
  {
    hide Mix; hide MixWith; hide Shuffled; hide ShuffledWith;
    MixedWith(0xFCF1445B4A5240A6, 0x7EBBF005970535C5, 0x26A66E6BCF76EDC8, 0x9EA54E258E1E1D53,
              0x802A6EE4F3E70F8C, 0xF8A7E3D11FF4531C, 0x3533C3A1AADED408, 0x11B0E9FB8029594C,
              [0x0706050443020100, 0x0F0E0D0C0B0A0908, 0x1716151413121110, 0x1F1E1D1C1B1A1918,
               0x2726252423222120, 0x2F2E2D2C2B2A2928, 0x3736353433323130, 0x3F3E3D3C3B3A3938]);
    Mixed(0xEE5325CA3AB2288E, 0x66A3AB950A9D71C5, 0x5CCC6471A55ED5B0, 0x868D219A609010AE,
          0x251F9BC0504337B4, 0x20E0A4F7AA11F628, 0x6161F34FD704FC30, 0xF998D1C5C4172942);
    SecondTest0Mixed();
  }

  lemma SecondTest1Mixed()
    ensures ShuffledWith(0x4ED181C36AD864E3, 0x9C5EC9CF457803B9, 0x85D91C807615AC8F, 0x9A0EA24D6A9EF05D,
                         0x6B8D1DFF0E0E8CD4, 0x04DA62EA984B95A4, 0xA95A7D10CA349CE3, 0x28BDB8F635650142,
                         [0x4746454443424140, 0x4F4E4D4C4B4A4948, 0x5756555453525150, 0x5F5E5D5C5B5A5958,
                          0x6766656463626160, 0x6F6E6D6C6B6A6968, 0x7776757473727170, 0x7F7E7D7C7B7A7978]) ==
              [0x1C1340027A684CCB, 0x8447CCCE582E86C8, 0x3B87324E4BFD9477, 0x81F6BD826430EDF0,
               0x0EE85AFBAA6AB4FC, 0x2D0E05FC4E9E50C0, 0x4DF91DBE76DE450B, 0x10A5A14888E380BC]
    ensures Shuffled(0x1C1340027A684CCB, 0x8447CCCE582E86C8, 0x3B87324E4BFD9477, 0x81F6BD826430EDF0,
                     0x0EE85AFBAA6AB4FC, 0x2D0E05FC4E9E50C0, 0x4DF91DBE76DE450B, 0x10A5A14888E380BC) ==
              [0x757A05ADE1E7FD97, 0x7A940756F1E237AE, 0xD3A6D0E63E624D0B, 0xFD94D2D77543B77F,
               0x442E76C022FAA0B7, 0xF6FE8F1148877752, 0x64C7F345B45630D2, 0x203BB40A64C6A2D2]
  {
  }

  lemma SecondTest1()
    ensures Absorb([0x4ED181C36AD864E3, 0x9C5EC9CF457803B9, 0x85D91C807615AC8F, 0x9A0EA24D6A9EF05D,
                    0x6B8D1DFF0E0E8CD4, 0x04DA62EA984B95A4, 0xA95A7D10CA349CE3, 0x28BDB8F635650142],
                   [0x4746454443424140, 0x4F4E4D4C4B4A4948, 0x5756555453525150, 0x5F5E5D5C5B5A5958,
                    0x6766656463626160, 0x6F6E6D6C6B6A6968, 0x7776757473727170, 0x7F7E7D7C7B7A7978]) ==
              [0x757A05ADE1E7FD97, 0x7A940756F1E237AE, 0xD3A6D0E63E624D0B, 0xFD94D2D77543B77F,
               0x442E76C022FAA0B7, 0xF6FE8F1148877752, 0x64C7F345B45630D2, 0x203BB40A64C6A2D2]
  {
    hide Mix; hide MixWith; hide Shuffled; hide ShuffledWith;
    MixedWith(0x4ED181C36AD864E3, 0x9C5EC9CF457803B9, 0x85D91C807615AC8F, 0x9A0EA24D6A9EF05D,
              0x6B8D1DFF0E0E8CD4, 0x04DA62EA984B95A4, 0xA95A7D10CA349CE3, 0x28BDB8F635650142,
              [0x4746454443424140, 0x4F4E4D4C4B4A4948, 0x5756555453525150, 0x5F5E5D5C5B5A5958,
               0x6766656463626160, 0x6F6E6D6C6B6A6968, 0x7776757473727170, 0x7F7E7D7C7B7A7978]);
    Mixed(0x1C1340027A684CCB, 0x8447CCCE582E86C8, 0x3B87324E4BFD9477, 0x81F6BD826430EDF0,
          0x0EE85AFBAA6AB4FC, 0x2D0E05FC4E9E50C0, 0x4DF91DBE76DE450B, 0x10A5A14888E380BC);
    SecondTest1Mixed();
  }

  lemma SecondTest2Mixed()
    ensures ShuffledWith(0x757A05ADE1E7FD97, 0x7A940756F1E237AE, 0xD3A6D0E63E624D0B, 0xFD94D2D77543B77F,
                         0x442E76C022FAA0B7, 0xF6FE8F1148877752, 0x64C7F345B45630D2, 0x203BB40A64C6A2D2,
                         [0x8786858483828180, 0x8F8E8D8C8B8A8988, 0x9796959493929190, 0x9F9E9D9C9B9A9998,
                          0xA7A6A5A4A3A2A1A0, 0xAFAEADACABAAA9A8, 0xB7B6B5B4B3B2B1B0, 0xBFBEBDBCBBBAB9B8]) ==
              [0x17ABA45C8107E57F, 0x62799144AFB871FC, 0xE1C482E43C4A34F3, 0xE57CED680BFDCAB2,
               0xC13BB204E74EC8DF, 0x1EC97877BF02D236, 0x91F5226AD97D58FA, 0x08239AF559B7A3AD]
    ensures Shuffled(0x17ABA45C8107E57F, 0x62799144AFB871FC, 0xE1C482E43C4A34F3, 0xE57CED680BFDCAB2,
                     0xC13BB204E74EC8DF, 0x1EC97877BF02D236, 0x91F5226AD97D58FA, 0x08239AF559B7A3AD) ==
              [0xE0D951628E3F04B5, 0xD75D06B1056106F9, 0x10B9C5DAB3641312, 0x674BE38688495B65,
               0xD60D7E541826C718, 0x84C82A88B82D08D6, 0x349F71C41AD67E1C, 0xF747AA4522F67834]
  {
  }

  lemma SecondTest2()
    ensures Absorb([0x757A05ADE1E7FD97, 0x7A940756F1E237AE, 0xD3A6D0E63E624D0B, 0xFD94D2D77543B77F,
                    0x442E76C022FAA0B7, 0xF6FE8F1148877752, 0x64C7F345B45630D2, 0x203BB40A64C6A2D2],
                   [0x8786858483828180, 0x8F8E8D8C8B8A8988, 0x9796959493929190, 0x9F9E9D9C9B9A9998,
                    0xA7A6A5A4A3A2A1A0, 0xAFAEADACABAAA9A8, 0xB7B6B5B4B3B2B1B0, 0xBFBEBDBCBBBAB9B8]) ==
              [0xE0D951628E3F04B5, 0xD75D06B1056106F9, 0x10B9C5DAB3641312, 0x674BE38688495B65,
               0xD60D7E541826C718, 0x84C82A88B82D08D6, 0x349F71C41AD67E1C, 0xF747AA4522F67834]
  {
    hide Mix; hide MixWith; hide Shuffled; hide ShuffledWith;
    MixedWith(0x757A05ADE1E7FD97, 0x7A940756F1E237AE, 0xD3A6D0E63E624D0B, 0xFD94D2D77543B77F,
              0x442E76C022FAA0B7, 0xF6FE8F1148877752, 0x64C7F345B45630D2, 0x203BB40A64C6A2D2,
              [0x8786858483828180, 0x8F8E8D8C8B8A8988, 0x9796959493929190, 0x9F9E9D9C9B9A9998,
               0xA7A6A5A4A3A2A1A0, 0xAFAEADACABAAA9A8, 0xB7B6B5B4B3B2B1B0, 0xBFBEBDBCBBBAB9B8]);
    Mixed(0x17ABA45C8107E57F, 0x62799144AFB871FC, 0xE1C482E43C4A34F3, 0xE57CED680BFDCAB2,
          0xC13BB204E74EC8DF, 0x1EC97877BF02D236, 0x91F5226AD97D58FA, 0x08239AF559B7A3AD);
    SecondTest2Mixed();
  }

  lemma SecondTest3Mixed()
    ensures ShuffledWith(0xE0D951628E3F04B5, 0xD75D06B1056106F9, 0x10B9C5DAB3641312, 0x674BE38688495B65,
                         0xD60D7E541826C718, 0x84C82A88B82D08D6, 0x349F71C41AD67E1C, 0xF747AA4522F67834,
                         [0xC7C6C5C4C3C2C1C0, 0xCFCECDCCCBCAC9C8, 0xD7D6D5D4D3D2D1D0, 0xDFDEDDDCDBDAD9D8,
                          0xE7E6E5E4E3E2E1E0, 0xEFEEEDECEBEAE9E8, 0x0000000000000000, 0x0000000000000000]) ==
              [0xA22B50A31ECEEC9D, 0xBF4791E39A3B818A, 0xAED69D99913EECEA, 0x4F32BE9C1ADA48B0,
               0xFE35A67C404EEF40, 0xB4F95CBBEC623F0E, 0xE13E226ECB832C4C, 0xDF2F93B99F47C68B]
    ensures Shuffled(0xA22B50A31ECEEC9D, 0xBF4791E39A3B818A, 0xAED69D99913EECEA, 0x4F32BE9C1ADA48B0,
                     0xFE35A67C404EEF40, 0xB4F95CBBEC623F0E, 0xE13E226ECB832C4C, 0xDF2F93B99F47C68B) ==
              [0xB845DEFAE342E1FA, 0xAF1FC40EC4C8C107, 0x086C7EAE8F347E13, 0x11FD4A93D82A8149,
               0x372E27B58EFEA92C, 0x0774F8871129F41F, 0x7325E484E965B82B, 0x7127F36144209FF2]
  {
  }

  lemma SecondTest3()
    ensures Absorb([0xE0D951628E3F04B5, 0xD75D06B1056106F9, 0x10B9C5DAB3641312, 0x674BE38688495B65,
                    0xD60D7E541826C718, 0x84C82A88B82D08D6, 0x349F71C41AD67E1C, 0xF747AA4522F67834],
                   [0xC7C6C5C4C3C2C1C0, 0xCFCECDCCCBCAC9C8, 0xD7D6D5D4D3D2D1D0, 0xDFDEDDDCDBDAD9D8,
                    0xE7E6E5E4E3E2E1E0, 0xEFEEEDECEBEAE9E8, 0x0000000000000000, 0x0000000000000000]) ==
              [0xB845DEFAE342E1FA, 0xAF1FC40EC4C8C107, 0x086C7EAE8F347E13, 0x11FD4A93D82A8149,
               0x372E27B58EFEA92C, 0x0774F8871129F41F, 0x7325E484E965B82B, 0x7127F36144209FF2]
  {
    hide Mix; hide MixWith; hide Shuffled; hide ShuffledWith;
    MixedWith(0xE0D951628E3F04B5, 0xD75D06B1056106F9, 0x10B9C5DAB3641312, 0x674BE38688495B65,
              0xD60D7E541826C718, 0x84C82A88B82D08D6, 0x349F71C41AD67E1C, 0xF747AA4522F67834,
              [0xC7C6C5C4C3C2C1C0, 0xCFCECDCCCBCAC9C8, 0xD7D6D5D4D3D2D1D0, 0xDFDEDDDCDBDAD9D8,
               0xE7E6E5E4E3E2E1E0, 0xEFEEEDECEBEAE9E8, 0x0000000000000000, 0x0000000000000000]);
    Mixed(0xA22B50A31ECEEC9D, 0xBF4791E39A3B818A, 0xAED69D99913EECEA, 0x4F32BE9C1ADA48B0,
          0xFE35A67C404EEF40, 0xB4F95CBBEC623F0E, 0xE13E226ECB832C4C, 0xDF2F93B99F47C68B);
    SecondTest3Mixed();
  }

  lemma SecondTest4Mixed()
    ensures ShuffledWith(0xB845DEFAE342E1FA, 0xAF1FC40EC4C8C107, 0x086C7EAE8F347E13, 0x11FD4A93D82A8149,
                         0x372E27B58EFEA92C, 0x0774F8871129F41F, 0x7325E484E965B82B, 0x7127F36144209FF2,
                         [0x00000000000000F0, 0x00000000000000F0, 0x00000000000000F0, 0x00000000000000F0,
                          0x00000000000000F0, 0x00000000000000F0, 0x00000000000000F0, 0x00000000000000F0]) ==
              [0xB845DEFAE33AE1FA, 0xAF1FC40EC4C8C107, 0x086C7EAE80347E13, 0x11FD4A93D82A8149,
               0x372E27B58EC2A92C, 0x0774F8871129F41F, 0x7325E484E964582B, 0x7127F36144209FF2]
    ensures Shuffled(0xB845DEFAE33AE1FA, 0xAF1FC40EC4C8C107, 0x086C7EAE80347E13, 0x11FD4A93D82A8149,
                     0x372E27B58EC2A92C, 0x0774F8871129F41F, 0x7325E484E964582B, 0x7127F36144209FF2) ==
              [0xA0AA3C5A2B411585, 0x53F417E4F0F1FE9D, 0x7E6897343B6F42AB, 0xB641D3A9D44EC426,
               0xFC61C99CB47B795A, 0x913B2A918E406733, 0x19E0AF374781B5E0, 0x3BFDD83F69DB3460]
  {
  }

  lemma SecondTest4()
    ensures Absorb([0xB845DEFAE342E1FA, 0xAF1FC40EC4C8C107, 0x086C7EAE8F347E13, 0x11FD4A93D82A8149,
                    0x372E27B58EFEA92C, 0x0774F8871129F41F, 0x7325E484E965B82B, 0x7127F36144209FF2],
                   [0x00000000000000F0, 0x00000000000000F0, 0x00000000000000F0, 0x00000000000000F0,
                    0x00000000000000F0, 0x00000000000000F0, 0x00000000000000F0, 0x00000000000000F0]) ==
              [0xA0AA3C5A2B411585, 0x53F417E4F0F1FE9D, 0x7E6897343B6F42AB, 0xB641D3A9D44EC426,
               0xFC61C99CB47B795A, 0x913B2A918E406733, 0x19E0AF374781B5E0, 0x3BFDD83F69DB3460]
  {
    hide Mix; hide MixWith; hide Shuffled; hide ShuffledWith;
    MixedWith(0xB845DEFAE342E1FA, 0xAF1FC40EC4C8C107, 0x086C7EAE8F347E13, 0x11FD4A93D82A8149,
              0x372E27B58EFEA92C, 0x0774F8871129F41F, 0x7325E484E965B82B, 0x7127F36144209FF2,
              [0x00000000000000F0, 0x00000000000000F0, 0x00000000000000F0, 0x00000000000000F0,
               0x00000000000000F0, 0x00000000000000F0, 0x00000000000000F0, 0x00000000000000F0]);
    Mixed(0xB845DEFAE33AE1FA, 0xAF1FC40EC4C8C107, 0x086C7EAE80347E13, 0x11FD4A93D82A8149,
          0x372E27B58EC2A92C, 0x0774F8871129F41F, 0x7325E484E964582B, 0x7127F36144209FF2);
    SecondTest4Mixed();
  }

  lemma InitIs()
    ensures InitWords() ==
              [0xFCF1445B4A5240A6, 0x7EBBF005970535C5, 0x26A66E6BCF76EDC8, 0x9EA54E258E1E1D53,
               0x802A6EE4F3E70F8C, 0xF8A7E3D11FF4531C, 0x3533C3A1AADED408, 0x11B0E9FB8029594C]
  {
  }

  lemma NextChunk(s: Words, r: seq<Bytes>, rest: Bytes)
    requires EightRuns(r)
    ensures AbsorbAll(s, Glued(r) + rest) == AbsorbAll(Absorb(s, LoadWords(Glued(r))), rest)
  {
    hide Absorb; hide LoadWords; hide Glued;
    var data := Glued(r) + rest;
    assert data[..CHUNK] == Glued(r) && data[CHUNK..] == rest;
  }

  lemma LastChunk(s: Words)
    ensures AbsorbAll(s, Tail()) == Absorb(s, LoadWords(Tail() + Zeros(16)))
  {
    hide Absorb; hide LoadWords; hide Tail;
  }

  /** The words after `update` with the 240 bytes, and then the count mixed in. */
  lemma TestWords(third: bv8)
    ensures Finished(Updated(START, TestData(third))) ==
              Absorb(Absorb(Absorb(Absorb(Absorb(InitWords(), LoadWords(Glued(FirstChunk(third)))),
                LoadWords(Glued(Counting(64)))), LoadWords(Glued(Counting(128)))), LoadWords(Tail() + Zeros(16))), CountWords(240))
  {
    hide Absorb; hide LoadWords; hide Glued; hide Tail; hide AbsorbAll; hide Counting; hide FirstChunk; hide InitWords; hide CountWords;
    var rest := Glued(Counting(128)) + Tail();
    var s := Absorb(InitWords(), LoadWords(Glued(FirstChunk(third))));
    NextChunk(InitWords(), FirstChunk(third), Glued(Counting(64)) + rest);
    NextChunk(s, Counting(64), rest);
    s := Absorb(s, LoadWords(Glued(Counting(64))));
    NextChunk(s, Counting(128), Tail());
    LastChunk(Absorb(s, LoadWords(Glued(Counting(128)))));
    assert |TestData(third)| == 240;
  }

  lemma FirstTestWords()
    ensures Finished(Updated(START, TestData(3))) ==
              [0xF427CCD4183C79B9, 0x731E1E7927967C54, 0x560ADD7F6AA4D302, 0x354C5F1502B23D6B,
               0x1B46F16CAEA67A55, 0x2A3AF4D2F3885916, 0x77698A3A160A3DBD, 0x79B4150B026DCEA0]
  {
    hide Absorb; hide LoadWords; hide Glued; hide Tail; hide Counting; hide FirstChunk; hide InitWords; hide CountWords; hide Updated; hide Finished;
    TestWords(3);
    InitIs();
    FirstWords();
    SecondWords();
    ThirdWords();
    TailWords();
    CountIs(240);
    FirstTest0();
    FirstTest1();
    FirstTest2();
    FirstTest3();
    FirstTest4();
  }

  lemma SecondTestWords()
    ensures Finished(Updated(START, TestData(3 ^ 0x40))) ==
              [0xA0AA3C5A2B411585, 0x53F417E4F0F1FE9D, 0x7E6897343B6F42AB, 0xB641D3A9D44EC426,
               0xFC61C99CB47B795A, 0x913B2A918E406733, 0x19E0AF374781B5E0, 0x3BFDD83F69DB3460]
  {
    hide Absorb; hide LoadWords; hide Glued; hide Tail; hide Counting; hide FirstChunk; hide InitWords; hide CountWords; hide Updated; hide Finished;
    TestWords(3 ^ 0x40);
    InitIs();
    FlippedWords();
    SecondWords();
    ThirdWords();
    TailWords();
    CountIs(240);
    SecondTest0();
    SecondTest1();
    SecondTest2();
    SecondTest3();
    SecondTest4();
  }

  // ---------------------------------------------------------------- the printed form

  function HexPair(x: bv8, y: bv8): string {
    HexByte(x) + HexByte(y) + "-"
  }

  function HexWord(w: bv64): string {
    HexPair(Byte(w, 7), Byte(w, 6)) + HexPair(Byte(w, 5), Byte(w, 4)) + HexPair(Byte(w, 3), Byte(w, 2)) + HexPair(Byte(w, 1), Byte(w, 0))
  }

  function HexDigit(x: bv8): char {
    match x
    case 0 => '0' case 1 => '1' case 2 => '2' case 3 => '3' case 4 => '4' case 5 => '5' case 6 => '6' case 7 => '7'
    case 8 => '8' case 9 => '9' case 10 => 'A' case 11 => 'B' case 12 => 'C' case 13 => 'D' case 14 => 'E' case _ => 'F'
  }

  lemma Nibbles(b: bv8)
    ensures (b >> 4) as nat == b as nat / 16 && (b & 0xF) as nat == b as nat % 16 && b >> 4 < 16 && b & 0xF < 16
  {
  }

  lemma DigitIs(x: bv8)
    requires x < 16
    ensures x as nat < 16 && HEX[x as nat] == HexDigit(x)
  {
    assert x == 0 || x == 1 || x == 2 || x == 3 || x == 4 || x == 5 || x == 6 || x == 7 ||
           x == 8 || x == 9 || x == 10 || x == 11 || x == 12 || x == 13 || x == 14 || x == 15;
  }

  lemma HexByteIs(b: bv8)
    ensures HexByte(b) == [HexDigit(b >> 4), HexDigit(b & 0xF)]
  {
    Nibbles(b);
    DigitIs(b >> 4);
    DigitIs(b & 0xF);
  }

  function Printed(w: bv64): string {
    [High(Byte(w, 7)), Low(Byte(w, 7)), High(Byte(w, 6)), Low(Byte(w, 6)), '-',
     High(Byte(w, 5)), Low(Byte(w, 5)), High(Byte(w, 4)), Low(Byte(w, 4)), '-',
     High(Byte(w, 3)), Low(Byte(w, 3)), High(Byte(w, 2)), Low(Byte(w, 2)), '-',
     High(Byte(w, 1)), Low(Byte(w, 1)), High(Byte(w, 0)), Low(Byte(w, 0)), '-']
  }

  lemma HexPairIs(x: bv8, y: bv8)
    ensures HexPair(x, y) == [HexDigit(x >> 4), HexDigit(x & 0xF), HexDigit(y >> 4), HexDigit(y & 0xF), '-']
  {
    hide HexByte; hide HexDigit;
    HexByteIs(x);
    HexByteIs(y);
  }

  lemma FourFives<T>(a: seq<T>, b: seq<T>, c: seq<T>, d: seq<T>)
    requires |a| == |b| == |c| == |d| == 5
    ensures a + b + c + d == [a[0], a[1], a[2], a[3], a[4], b[0], b[1], b[2], b[3], b[4],
                              c[0], c[1], c[2], c[3], c[4], d[0], d[1], d[2], d[3], d[4]]
  {
  }

  function High(b: bv8): char {
    HexDigit(b >> 4)
  }

  function Low(b: bv8): char {
    HexDigit(b & 0xF)
  }

  lemma HexPairOf(x: bv8, y: bv8)
    ensures HexPair(x, y) == [High(x), Low(x), High(y), Low(y), '-']
  {
    hide HexPair; hide HexDigit;
    HexPairIs(x, y);
  }

  lemma HexWordIs(w: bv64)
    ensures HexWord(w) == Printed(w)
  {
    hide HexPair; hide Byte; hide High; hide Low;
    HexPairOf(Byte(w, 7), Byte(w, 6));
    HexPairOf(Byte(w, 5), Byte(w, 4));
    HexPairOf(Byte(w, 3), Byte(w, 2));
    HexPairOf(Byte(w, 1), Byte(w, 0));
    FourFives(HexPair(Byte(w, 7), Byte(w, 6)), HexPair(Byte(w, 5), Byte(w, 4)),
              HexPair(Byte(w, 3), Byte(w, 2)), HexPair(Byte(w, 1), Byte(w, 0)));
  }

  lemma PairPrinted(d: Bytes, n: nat)
    requires n % 2 == 0 && n + 2 <= |d|
    ensures HexUpTo(d, n + 2) == HexUpTo(d, n) + HexPair(d[n], d[n + 1])
  {
    hide HexByte;
    assert HexUpTo(d, n + 1) == HexUpTo(d, n) + HexByte(d[n]);
    assert HexUpTo(d, n + 2) == HexUpTo(d, n + 1) + HexByte(d[n + 1]) + "-";
  }

  lemma Appended<T>(s: seq<T>, a: seq<T>, b: seq<T>, c: seq<T>, d: seq<T>)
    ensures s + a + b + c + d == s + (a + b + c + d)
  {
  }

  /** The m-th two bytes of a word. */
  lemma PairOfWord(words: Words, i: nat, m: nat)
    requires i < 8 && m < 4
    ensures HexUpTo(DigestOf(words), 8 * i + 2 * m + 2) ==
              HexUpTo(DigestOf(words), 8 * i + 2 * m) + HexPair(Byte(words[i], 7 - 2 * m), Byte(words[i], 6 - 2 * m))
  {
    hide HexPair; hide HexUpTo; hide Byte; hide DigestOf;
    DigestIsBigEndian(words, i, 2 * m);
    DigestIsBigEndian(words, i, 2 * m + 1);
    PairPrinted(DigestOf(words), 8 * i + 2 * m);
  }

  lemma WordPrinted(words: Words, i: nat)
    requires i < 8
    ensures HexUpTo(DigestOf(words), 8 * i + 8) == HexUpTo(DigestOf(words), 8 * i) + HexWord(words[i])
  {
    hide HexPair; hide HexUpTo; hide Byte; hide DigestOf;
    var w := words[i];
    PairOfWord(words, i, 0);
    PairOfWord(words, i, 1);
    PairOfWord(words, i, 2);
    PairOfWord(words, i, 3);
    Appended(HexUpTo(DigestOf(words), 8 * i), HexPair(Byte(w, 7), Byte(w, 6)), HexPair(Byte(w, 5), Byte(w, 4)),
             HexPair(Byte(w, 3), Byte(w, 2)), HexPair(Byte(w, 1), Byte(w, 0)));
  }

  /** The eight words printed, but for the dash after the last. */
  lemma AllPrinted(words: Words)
    ensures HexString(DigestOf(words)) + "-" ==
              HexWord(words[A]) + HexWord(words[B]) + HexWord(words[C]) + HexWord(words[D]) +
              HexWord(words[E]) + HexWord(words[F]) + HexWord(words[G]) + HexWord(words[H])
  {
    hide HexWord; hide DigestOf; hide HexByte;
    var d := DigestOf(words);
    assert HexUpTo(d, 0) + HexWord(words[A]) == HexWord(words[A]);
    assert HexUpTo(d, 64) == HexString(d) + "-";
    hide HexUpTo;
    WordPrinted(words, A);
    WordPrinted(words, B);
    WordPrinted(words, C);
    WordPrinted(words, D);
    WordPrinted(words, E);
    WordPrinted(words, F);
    WordPrinted(words, G);
    WordPrinted(words, H);
  }

  lemma FirstTestPrinted0()
    ensures HexWord(0xF427CCD4183C79B9) == "F427-CCD4-183C-79B9-"
  {
    HexWordIs(0xF427CCD4183C79B9);
    hide HexWord;
  }

  lemma FirstTestPrinted1()
    ensures HexWord(0x731E1E7927967C54) == "731E-1E79-2796-7C54-"
  {
    HexWordIs(0x731E1E7927967C54);
    hide HexWord;
  }

  lemma FirstTestPrinted2()
    ensures HexWord(0x560ADD7F6AA4D302) == "560A-DD7F-6AA4-D302-"
  {
    HexWordIs(0x560ADD7F6AA4D302);
    hide HexWord;
  }

  lemma FirstTestPrinted3()
    ensures HexWord(0x354C5F1502B23D6B) == "354C-5F15-02B2-3D6B-"
  {
    HexWordIs(0x354C5F1502B23D6B);
    hide HexWord;
  }

  lemma FirstTestPrinted4()
    ensures HexWord(0x1B46F16CAEA67A55) == "1B46-F16C-AEA6-7A55-"
  {
    HexWordIs(0x1B46F16CAEA67A55);
    hide HexWord;
  }

  lemma FirstTestPrinted5()
    ensures HexWord(0x2A3AF4D2F3885916) == "2A3A-F4D2-F388-5916-"
  {
    HexWordIs(0x2A3AF4D2F3885916);
    hide HexWord;
  }

  lemma FirstTestPrinted6()
    ensures HexWord(0x77698A3A160A3DBD) == "7769-8A3A-160A-3DBD-"
  {
    HexWordIs(0x77698A3A160A3DBD);
    hide HexWord;
  }

  lemma FirstTestPrinted7()
    ensures HexWord(0x79B4150B026DCEA0) == "79B4-150B-026D-CEA0-"
  {
    HexWordIs(0x79B4150B026DCEA0);
    hide HexWord;
  }

  lemma SecondTestPrinted0()
    ensures HexWord(0xA0AA3C5A2B411585) == "A0AA-3C5A-2B41-1585-"
  {
    HexWordIs(0xA0AA3C5A2B411585);
    hide HexWord;
  }

  lemma SecondTestPrinted1()
    ensures HexWord(0x53F417E4F0F1FE9D) == "53F4-17E4-F0F1-FE9D-"
  {
    HexWordIs(0x53F417E4F0F1FE9D);
    hide HexWord;
  }

  lemma SecondTestPrinted2()
    ensures HexWord(0x7E6897343B6F42AB) == "7E68-9734-3B6F-42AB-"
  {
    HexWordIs(0x7E6897343B6F42AB);
    hide HexWord;
  }

  lemma SecondTestPrinted3()
    ensures HexWord(0xB641D3A9D44EC426) == "B641-D3A9-D44E-C426-"
  {
    HexWordIs(0xB641D3A9D44EC426);
    hide HexWord;
  }

  lemma SecondTestPrinted4()
    ensures HexWord(0xFC61C99CB47B795A) == "FC61-C99C-B47B-795A-"
  {
    HexWordIs(0xFC61C99CB47B795A);
    hide HexWord;
  }

  lemma SecondTestPrinted5()
    ensures HexWord(0x913B2A918E406733) == "913B-2A91-8E40-6733-"
  {
    HexWordIs(0x913B2A918E406733);
    hide HexWord;
  }

  lemma SecondTestPrinted6()
    ensures HexWord(0x19E0AF374781B5E0) == "19E0-AF37-4781-B5E0-"
  {
    HexWordIs(0x19E0AF374781B5E0);
    hide HexWord;
  }

  lemma SecondTestPrinted7()
    ensures HexWord(0x3BFDD83F69DB3460) == "3BFD-D83F-69DB-3460-"
  {
    HexWordIs(0x3BFDD83F69DB3460);
    hide HexWord;
  }

  lemma DashDropped(t: string, u: string)
    requires t + "-" == u + "-"
    ensures t == u
  {
    assert t == (t + "-")[..|t|] && u == (u + "-")[..|u|] && |t| == |u|;
  }

  /** The first answer that `cdc512_test` expects. */
  lemma FirstAnswer()
    ensures HexString(Digest(TestData(3))) ==
              "F427-CCD4-183C-79B9-" + "731E-1E79-2796-7C54-" + "560A-DD7F-6AA4-D302-" + "354C-5F15-02B2-3D6B-" +
              "1B46-F16C-AEA6-7A55-" + "2A3A-F4D2-F388-5916-" + "7769-8A3A-160A-3DBD-" + "79B4-150B-026D-CEA0"
  {
    hide HexWord; hide HexString; hide DigestOf; hide TestData; hide AbsorbAll; hide Finished;
    var words := Finished(Updated(START, TestData(3)));
    FirstTestWords();
    AllPrinted(words);
    FirstTestPrinted0();
    FirstTestPrinted1();
    FirstTestPrinted2();
    FirstTestPrinted3();
    FirstTestPrinted4();
    FirstTestPrinted5();
    FirstTestPrinted6();
    FirstTestPrinted7();
    DashDropped(HexString(DigestOf(words)),
                "F427-CCD4-183C-79B9-" + "731E-1E79-2796-7C54-" + "560A-DD7F-6AA4-D302-" + "354C-5F15-02B2-3D6B-" +
                "1B46-F16C-AEA6-7A55-" + "2A3A-F4D2-F388-5916-" + "7769-8A3A-160A-3DBD-" + "79B4-150B-026D-CEA0");
  }

  /** The second answer that `cdc512_test` expects. */
  lemma SecondAnswer()
    ensures HexString(Digest(TestData(3 ^ 0x40))) ==
              "A0AA-3C5A-2B41-1585-" + "53F4-17E4-F0F1-FE9D-" + "7E68-9734-3B6F-42AB-" + "B641-D3A9-D44E-C426-" +
              "FC61-C99C-B47B-795A-" + "913B-2A91-8E40-6733-" + "19E0-AF37-4781-B5E0-" + "3BFD-D83F-69DB-3460"
  {
    hide HexWord; hide HexString; hide DigestOf; hide TestData; hide AbsorbAll; hide Finished;
    var words := Finished(Updated(START, TestData(3 ^ 0x40)));
    SecondTestWords();
    AllPrinted(words);
    SecondTestPrinted0();
    SecondTestPrinted1();
    SecondTestPrinted2();
    SecondTestPrinted3();
    SecondTestPrinted4();
    SecondTestPrinted5();
    SecondTestPrinted6();
    SecondTestPrinted7();
    DashDropped(HexString(DigestOf(words)),
                "A0AA-3C5A-2B41-1585-" + "53F4-17E4-F0F1-FE9D-" + "7E68-9734-3B6F-42AB-" + "B641-D3A9-D44E-C426-" +
                "FC61-C99C-B47B-795A-" + "913B-2A91-8E40-6733-" + "19E0-AF37-4781-B5E0-" + "3BFD-D83F-69DB-3460");
  }

  /** Nothing taken in, nothing mixed: the digest of an empty input is the start state, printed as it is written in the source. */
  lemma EmptyAnswer()
    ensures Digest([]) == Store(0xA640524A5B44F1FC) + Store(0xC535059705F0BB7E) + Store(0xC8ED76CF6B6EA626) + Store(0x531D1E8E254EA59E) +
                          Store(0x8C0FE7F3E46E2A80) + Store(0x1C53F41FD1E3A7F8) + Store(0x08D4DEAAA1C33335) + Store(0x4C592980FBE9B011)
  {
    hide Swap64; hide Store;
    SwapTwice(0xA640524A5B44F1FC);
    SwapTwice(0xC535059705F0BB7E);
    SwapTwice(0xC8ED76CF6B6EA626);
    SwapTwice(0x531D1E8E254EA59E);
    SwapTwice(0x8C0FE7F3E46E2A80);
    SwapTwice(0x1C53F41FD1E3A7F8);
    SwapTwice(0x08D4DEAAA1C33335);
    SwapTwice(0x4C592980FBE9B011);
  }

  // ---------------------------------------------------------------- the short form

  lemma FirstCharacters()
    ensures MARKS + "0123456789" == "._,=~!@#$%^&-+0123456789"
  {
  }

  lemma LettersAppended(t: string)
    requires t == "._,=~!@#$%^&-+0123456789"
    ensures t + "abcdefghijklmnopqrstuvwxyz" == "._,=~!@#$%^&-+0123456789abcdefghijklmnopqrstuvwxyz"
  {
  }

  lemma AlphabetIs()
    ensures ABC == "._,=~!@#$%^&-+0123456789abcdefghijklmnopqrstuvwxyz"
  {
    hide MARKS;
    FirstCharacters();
    LettersAppended(MARKS + "0123456789");
  }

  /** The one-digit numbers are the characters of `abc` in their order. */
  lemma Alphabet(k: nat)
    requires 0 < k < 50
    ensures Digits(k) == ["._,=~!@#$%^&-+0123456789abcdefghijklmnopqrstuvwxyz"[k]]
  {
    AlphabetIs();
    hide ABC;
    assert k % BASE == k && k / BASE == 0 && Digits(0) == "";
  }

  lemma TwoDigitNumber(j: nat, k: nat)
    requires k < 50
    ensures (50 * j + k) % BASE == k && (50 * j + k) / BASE == j
  {
  }

  lemma NextDigit(n: nat)
    requires n > 0
    ensures Digits(n) == [ABC[n % BASE]] + Digits(n / BASE)
  {
    hide ABC;
  }

  /** A run begins with the last digit of its number. */
  lemma LastDigitFirst(j: nat, k: nat)
    requires 0 < j < 50 && k < 50
    ensures Digits(50 * j + k) == ["._,=~!@#$%^&-+0123456789abcdefghijklmnopqrstuvwxyz"[k]] + Digits(j)
  {
    TwoDigitNumber(j, k);
    NextDigit(50 * j + k);
    AlphabetIs();
    hide Digits; hide ABC;
  }

  lemma OneRun(words: Words, n: nat)
    requires 0 < n <= 8
    ensures ShortRuns(words, n) == Digits(words[n - 1] as nat) + ShortRuns(words, n - 1)
    ensures words[n - 1] == 0 ==> ShortRuns(words, n) == ShortRuns(words, n - 1)
  {
    assert Digits(0) == "";
    hide Digits;
  }

  lemma ZeroRuns(words: Words, n: nat)
    requires 1 <= n < 8 && forall k :: 1 <= k < 7 ==> words[k] == 0
    ensures ShortRuns(words, n) == Digits(words[0] as nat)
    decreases n
  {
    hide Digits;
    OneRun(words, n);
    if n > 1 {
      ZeroRuns(words, n - 1);
    } else {
      assert ShortRuns(words, 0) == "" && Digits(words[0] as nat) + "" == Digits(words[0] as nat);
    }
  }

  /** The last word of the digest is printed first, and a zero word prints nothing. */
  lemma LastWordFirst()
    ensures ShortRuns([1, 0, 0, 0, 0, 0, 0, 13], 8) == "+_"
  {
    Alphabet(1);
    Alphabet(13);
    hide Digits; hide ShortRuns;
    var words: Words := [1, 0, 0, 0, 0, 0, 0, 13];
    ZeroRuns(words, 7);
    OneRun(words, 8);
  }
}
