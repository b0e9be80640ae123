/** Tables of the DES cipher (FIPS 46-3), counted from zero, in rows of eight. */
module DesTables {

  type Half = x: nat | x < 32
  type Reduced = x: nat | x < 56
  type Position = x: nat | x < 64
  type Table<T> = seq<seq<T>>

  function At<T>(t: Table<T>, i: nat, none: T): T {
    if i / 8 < |t| && i % 8 < |t[i / 8]| then t[i / 8][i % 8] else none
  }

  const PC1: Table<Position> := [
    [56, 48, 40, 32, 24, 16, 8, 0],
    [57, 49, 41, 33, 25, 17, 9, 1],
    [58, 50, 42, 34, 26, 18, 10, 2],
    [59, 51, 43, 35, 62, 54, 46, 38],
    [30, 22, 14, 6, 61, 53, 45, 37],
    [29, 21, 13, 5, 60, 52, 44, 36],
    [28, 20, 12, 4, 27, 19, 11, 3]]

  const PC2: Table<Reduced> := [
    [13, 16, 10, 23, 0, 4, 2, 27],
    [14, 5, 20, 9, 22, 18, 11, 3],
    [25, 7, 15, 6, 26, 19, 12, 1],
    [40, 51, 30, 36, 46, 54, 29, 39],
    [50, 44, 32, 47, 43, 48, 38, 55],
    [33, 52, 45, 41, 49, 35, 28, 31]]

  const IP: Table<Position> := [
    [57, 49, 41, 33, 25, 17, 9, 1],
    [59, 51, 43, 35, 27, 19, 11, 3],
    [61, 53, 45, 37, 29, 21, 13, 5],
    [63, 55, 47, 39, 31, 23, 15, 7],
    [56, 48, 40, 32, 24, 16, 8, 0],
    [58, 50, 42, 34, 26, 18, 10, 2],
    [60, 52, 44, 36, 28, 20, 12, 4],
    [62, 54, 46, 38, 30, 22, 14, 6]]

  const EP: Table<Position> := [
    [7, 39, 15, 47, 23, 55, 31, 63],
    [6, 38, 14, 46, 22, 54, 30, 62],
    [5, 37, 13, 45, 21, 53, 29, 61],
    [4, 36, 12, 44, 20, 52, 28, 60],
    [3, 35, 11, 43, 19, 51, 27, 59],
    [2, 34, 10, 42, 18, 50, 26, 58],
    [1, 33, 9, 41, 17, 49, 25, 57],
    [0, 32, 8, 40, 16, 48, 24, 56]]

  const E0: Table<Half> := [
    [31, 0, 1, 2, 3, 4, 3, 4],
    [5, 6, 7, 8, 7, 8, 9, 10],
    [11, 12, 11, 12, 13, 14, 15, 16],
    [15, 16, 17, 18, 19, 20, 19, 20],
    [21, 22, 23, 24, 23, 24, 25, 26],
    [27, 28, 27, 28, 29, 30, 31, 0]]

  const PERM: Table<Half> := [
    [15, 6, 19, 20, 28, 11, 27, 16],
    [0, 14, 22, 25, 4, 17, 30, 9],
    [1, 7, 23, 13, 31, 26, 2, 8],
    [18, 12, 29, 5, 21, 10, 3, 24]]

  const BOX0: Table<nat> := [
    [14, 0, 4, 15, 13, 7, 1, 4],
    [2, 14, 15, 2, 11, 13, 8, 1],
    [3, 10, 10, 6, 6, 12, 12, 11],
    [5, 9, 9, 5, 0, 3, 7, 8],
    [4, 15, 1, 12, 14, 8, 8, 2],
    [13, 4, 6, 9, 2, 1, 11, 7],
    [15, 5, 12, 11, 9, 3, 7, 14],
    [3, 10, 10, 0, 5, 6, 0, 13]]

  const BOX1: Table<nat> := [
    [15, 3, 1, 13, 8, 4, 14, 7],
    [6, 15, 11, 2, 3, 8, 4, 14],
    [9, 12, 7, 0, 2, 1, 13, 10],
    [12, 6, 0, 9, 5, 11, 10, 5],
    [0, 13, 14, 8, 7, 10, 11, 1],
    [10, 3, 4, 15, 13, 4, 1, 2],
    [5, 11, 8, 6, 12, 7, 6, 12],
    [9, 0, 3, 5, 2, 14, 15, 9]]

  const BOX2: Table<nat> := [
    [10, 13, 0, 7, 9, 0, 14, 9],
    [6, 3, 3, 4, 15, 6, 5, 10],
    [1, 2, 13, 8, 12, 5, 7, 14],
    [11, 12, 4, 11, 2, 15, 8, 1],
    [13, 1, 6, 10, 4, 13, 9, 0],
    [8, 6, 15, 9, 3, 8, 0, 7],
    [11, 4, 1, 15, 2, 14, 12, 3],
    [5, 11, 10, 5, 14, 2, 7, 12]]

  const BOX3: Table<nat> := [
    [7, 13, 13, 8, 14, 11, 3, 5],
    [0, 6, 6, 15, 9, 0, 10, 3],
    [1, 4, 2, 7, 8, 2, 5, 12],
    [11, 1, 12, 10, 4, 14, 15, 9],
    [10, 3, 6, 15, 9, 0, 0, 6],
    [12, 10, 11, 1, 7, 13, 13, 8],
    [15, 9, 1, 4, 3, 5, 14, 11],
    [5, 12, 2, 7, 8, 2, 4, 14]]

  const BOX4: Table<nat> := [
    [2, 14, 12, 11, 4, 2, 1, 12],
    [7, 4, 10, 7, 11, 13, 6, 1],
    [8, 5, 5, 0, 3, 15, 15, 10],
    [13, 3, 0, 9, 14, 8, 9, 6],
    [4, 11, 2, 8, 1, 12, 11, 7],
    [10, 1, 13, 14, 7, 2, 8, 13],
    [15, 6, 9, 15, 12, 0, 5, 9],
    [6, 10, 3, 4, 0, 5, 14, 3]]

  const BOX5: Table<nat> := [
    [12, 10, 1, 15, 10, 4, 15, 2],
    [9, 7, 2, 12, 6, 9, 8, 5],
    [0, 6, 13, 1, 3, 13, 4, 14],
    [14, 0, 7, 11, 5, 3, 11, 8],
    [9, 4, 14, 3, 15, 2, 5, 12],
    [2, 9, 8, 5, 12, 15, 3, 10],
    [7, 11, 0, 14, 4, 1, 10, 7],
    [1, 6, 13, 0, 11, 8, 6, 13]]

  const BOX6: Table<nat> := [
    [4, 13, 11, 0, 2, 11, 14, 7],
    [15, 4, 0, 9, 8, 1, 13, 10],
    [3, 14, 12, 3, 9, 5, 7, 12],
    [5, 2, 10, 15, 6, 8, 1, 6],
    [1, 6, 4, 11, 11, 13, 13, 8],
    [12, 1, 3, 4, 7, 10, 14, 7],
    [10, 9, 15, 5, 6, 0, 8, 15],
    [0, 14, 5, 2, 9, 3, 2, 12]]

  const BOX7: Table<nat> := [
    [13, 1, 2, 15, 8, 13, 4, 8],
    [6, 10, 15, 3, 11, 7, 1, 4],
    [10, 12, 9, 5, 3, 6, 14, 11],
    [5, 0, 0, 14, 12, 9, 7, 2],
    [7, 2, 11, 1, 4, 14, 1, 7],
    [9, 4, 12, 10, 14, 8, 2, 13],
    [0, 15, 6, 12, 10, 9, 13, 0],
    [15, 3, 3, 5, 5, 6, 8, 11]]

  const S_BOX: seq<Table<nat>> := [BOX0, BOX1, BOX2, BOX3, BOX4, BOX5, BOX6, BOX7]

  /** The position that the initial permutation takes a bit from. */
  function Initial(i: nat): Position {
    At(IP, i, 0)
  }

  function Final(i: nat): Position {
    At(EP, i, 0)
  }

  /** The regular pattern of the initial permutation. */
  lemma InitialPattern(r: nat, c: nat)
    requires r < 8 && c < 8
    ensures Initial(8 * r + c) == (if r < 4 then 57 else 48) + 2 * r - 8 * c
  {
    assert (8 * r + c) / 8 == r && (8 * r + c) % 8 == c;
    var base := (if r < 4 then 57 else 48) + 2 * r;
    assert IP[r] == [base, base - 8, base - 16, base - 24, base - 32, base - 40, base - 48, base - 56];
  }

  /** The regular pattern of the final permutation, in even and odd columns. */
  lemma FinalEven(r: nat, h: nat)
    requires r < 8 && h < 4
    ensures Final(8 * r + 2 * h) == 7 - r + 8 * h
  {
    assert (8 * r + 2 * h) / 8 == r && (8 * r + 2 * h) % 8 == 2 * h;
    assert EP[r] == [7 - r, 39 - r, 15 - r, 47 - r, 23 - r, 55 - r, 31 - r, 63 - r];
  }

  lemma FinalOdd(r: nat, h: nat)
    requires r < 8 && h < 4
    ensures Final(8 * r + 2 * h + 1) == 39 - r + 8 * h
  {
    assert (8 * r + 2 * h + 1) / 8 == r && (8 * r + 2 * h + 1) % 8 == 2 * h + 1;
    assert EP[r] == [7 - r, 39 - r, 15 - r, 47 - r, 23 - r, 55 - r, 31 - r, 63 - r];
  }

  lemma FinalOfInitial(r: nat, c: nat)
    requires r < 8 && c < 8
    ensures Final(Initial(8 * r + c)) == (8 * r + c + 32) % 64
  {
    hide Initial, Final;
    InitialPattern(r, c);
    FinalEven(7 - c, if r < 4 then r else r - 4);
    FinalOdd(7 - c, if r < 4 then r else r - 4);
  }

  lemma InitialOfFinal(r: nat, h: nat)
    requires r < 8 && h < 4
    ensures Initial((Final(8 * r + 2 * h) + 32) % 64) == 8 * r + 2 * h
    ensures Initial((Final(8 * r + 2 * h + 1) + 32) % 64) == 8 * r + 2 * h + 1
  {
    hide Initial, Final;
    FinalEven(r, h);
    FinalOdd(r, h);
    InitialPattern(h, 7 - r);
    InitialPattern(h + 4, 7 - r);
  }

  /** Going through the final permutation and then the initial one exchanges
    * the halves of a block; undoing that exchange between the initial and the
    * final permutation gives back every bit. */
  lemma HalvesExchanged(i: nat)
    requires i < 64
    ensures Final(Initial(i)) == (i + 32) % 64
    ensures Initial((Final(i) + 32) % 64) == i
  {
    hide Initial, Final;
    FinalOfInitial(i / 8, i % 8);
    InitialOfFinal(i / 8, i % 8 / 2);
    assert 8 * (i / 8) + i % 8 == i;
  }
}
