/**
 The tables of keywordhash.h:27-134 and, beside them, the plain list of the keywords they stand for.
 */
module KeywordTables {
  /** A byte of the input or of the packed text. */
  type byte = bv8

  const A: byte := 0x41
  const B: byte := 0x42
  const C: byte := 0x43
  const D: byte := 0x44
  const E: byte := 0x45
  const F: byte := 0x46
  const G: byte := 0x47
  const H: byte := 0x48
  const I: byte := 0x49
  const J: byte := 0x4A
  const K: byte := 0x4B
  const L: byte := 0x4C
  const M: byte := 0x4D
  const N: byte := 0x4E
  const O: byte := 0x4F
  const P: byte := 0x50
  const Q: byte := 0x51
  const R: byte := 0x52
  const S: byte := 0x53
  const T: byte := 0x54
  const U: byte := 0x55
  const V: byte := 0x56
  const W: byte := 0x57
  const X: byte := 0x58
  const Y: byte := 0x59
  const Z: byte := 0x5A
  const US: byte := 0x5F

  /** zText: the packed spellings, which overlap. */
  function ZText(k: nat): byte
    requires k < 553
  {
    if k < 18 then [R, E, I, N, D, E, X, E, D, E, S, C, A, P, E, A, C, H][k]
    else if k < 36 then [E, C, K, E, Y, B, E, F, O, R, E, I, G, N, O, R, E, G][k - 18]
    else if k < 54 then [E, X, P, L, A, I, N, S, T, E, A, D, D, A, T, A, B, A][k - 36]
    else if k < 72 then [S, E, L, E, C, T, A, B, L, E, F, T, H, E, N, D, E, F][k - 54]
    else if k < 90 then [E, R, R, A, B, L, E, L, S, E, X, C, E, P, T, R, A, N][k - 72]
    else if k < 108 then [S, A, C, T, I, O, N, A, T, U, R, A, L, T, E, R, A, I][k - 90]
    else if k < 126 then [S, E, X, C, L, U, S, I, V, E, X, I, S, T, S, A, V, E][k - 108]
    else if k < 144 then [P, O, I, N, T, E, R, S, E, C, T, R, I, G, G, E, R, E][k - 126]
    else if k < 162 then [F, E, R, E, N, C, E, S, C, O, N, S, T, R, A, I, N, T][k - 144]
    else if k < 180 then [O, F, F, S, E, T, E, M, P, O, R, A, R, Y, U, N, I, Q][k - 162]
    else if k < 198 then [U, E, R, Y, W, I, T, H, O, U, T, E, R, E, L, E, A, S][k - 180]
    else if k < 216 then [E, A, T, T, A, C, H, A, V, I, N, G, R, O, U, P, D, A][k - 198]
    else if k < 234 then [T, E, B, E, G, I, N, N, E, R, E, C, U, R, S, I, V, E][k - 216]
    else if k < 252 then [B, E, T, W, E, E, N, O, T, N, U, L, L, I, K, E, C, A][k - 234]
    else if k < 270 then [S, C, A, D, E, L, E, T, E, C, A, S, E, C, O, L, L, A][k - 252]
    else if k < 288 then [T, E, C, R, E, A, T, E, C, U, R, R, E, N, T, US, D, A][k - 270]
    else if k < 306 then [T, E, D, E, T, A, C, H, I, M, M, E, D, I, A, T, E, J][k - 288]
    else if k < 324 then [O, I, N, S, E, R, T, M, A, T, C, H, P, L, A, N, A, L][k - 306]
    else if k < 342 then [Y, Z, E, P, R, A, G, M, A, B, O, R, T, V, A, L, U, E][k - 324]
    else if k < 360 then [S, V, I, R, T, U, A, L, I, M, I, T, W, H, E, N, W, H][k - 342]
    else if k < 378 then [E, R, E, N, A, M, E, A, F, T, E, R, E, P, L, A, C, E][k - 360]
    else if k < 396 then [A, N, D, E, F, A, U, L, T, A, U, T, O, I, N, C, R, E][k - 378]
    else if k < 414 then [M, E, N, T, C, A, S, T, C, O, L, U, M, N, C, O, M, M][k - 396]
    else if k < 432 then [I, T, C, O, N, F, L, I, C, T, C, R, O, S, S, C, U, R][k - 414]
    else if k < 450 then [R, E, N, T, US, T, I, M, E, S, T, A, M, P, R, I, M, A][k - 432]
    else if k < 468 then [R, Y, D, E, F, E, R, R, E, D, I, S, T, I, N, C, T, D][k - 450]
    else if k < 486 then [R, O, P, F, A, I, L, F, R, O, M, F, U, L, L, G, L, O][k - 468]
    else if k < 504 then [B, Y, I, F, I, S, N, U, L, L, O, R, D, E, R, E, S, T][k - 486]
    else if k < 522 then [R, I, C, T, R, I, G, H, T, R, O, L, L, B, A, C, K, R][k - 504]
    else if k < 540 then [O, W, U, N, I, O, N, U, S, I, N, G, V, A, C, U, U, M][k - 522]
    else [V, I, E, W, I, N, I, T, I, A, L, L, Y][k - 540]
  }

  /** aHash: the first entry of each bucket, counted from one; 0 for none. */
  function AHash(h: nat): (i: int)
    requires h < 127
    ensures 0 <= i <= 124
  {
    if h < 13 then [76, 105, 117, 74, 0, 45, 0, 0, 82, 0, 77, 0, 0][h]
    else if h < 26 then [42, 12, 78, 15, 0, 116, 85, 54, 112, 0, 19, 0, 0][h - 13]
    else if h < 39 then [121, 0, 119, 115, 0, 22, 93, 0, 9, 0, 0, 70, 71][h - 26]
    else if h < 52 then [0, 69, 6, 0, 48, 90, 102, 0, 118, 101, 0, 0, 44][h - 39]
    else if h < 65 then [0, 103, 24, 0, 17, 0, 122, 53, 23, 0, 5, 110, 25][h - 52]
    else if h < 78 then [96, 0, 0, 124, 106, 60, 123, 57, 28, 55, 0, 91, 0][h - 65]
    else if h < 91 then [100, 26, 0, 99, 0, 0, 0, 95, 92, 97, 88, 109, 14][h - 78]
    else if h < 104 then [39, 108, 0, 81, 0, 18, 89, 111, 32, 0, 120, 80, 113][h - 91]
    else if h < 117 then [62, 46, 84, 0, 0, 94, 40, 59, 114, 0, 36, 0, 0][h - 104]
    else [29, 0, 86, 63, 64, 0, 20, 61, 0, 56][h - 117]
  }

  /** aNext: the entry after entry i in its bucket, counted from one; always an earlier one. */
  function ANext(i: nat): (next: int)
    requires i < 124
    ensures 0 <= next <= i
  {
    if i < 13 then [0, 0, 0, 0, 4, 0, 0, 0, 0, 0, 0, 0, 0][i]
    else if i < 26 then [0, 2, 0, 0, 0, 0, 0, 0, 13, 0, 0, 0, 0][i - 13]
    else if i < 39 then [0, 7, 0, 0, 0, 0, 0, 0, 0, 0, 0, 0, 0][i - 26]
    else if i < 52 then [0, 0, 0, 0, 33, 0, 21, 0, 0, 0, 0, 0, 50][i - 39]
    else if i < 65 then [0, 43, 3, 47, 0, 0, 0, 0, 30, 0, 58, 0, 38][i - 52]
    else if i < 78 then [0, 0, 0, 1, 66, 0, 0, 67, 0, 41, 0, 0, 0][i - 65]
    else if i < 91 then [0, 0, 0, 49, 65, 0, 0, 0, 0, 31, 52, 16, 34][i - 78]
    else if i < 104 then [10, 0, 0, 0, 0, 0, 0, 0, 11, 72, 79, 0, 8][i - 91]
    else if i < 117 then [0, 104, 98, 0, 107, 0, 87, 0, 75, 51, 0, 27, 37][i - 104]
    else [73, 83, 0, 35, 68, 0, 0][i - 117]
  }

  /** aLen, aOffset: where in zText an entry is spelled. */
  function ALen(i: nat): int
    requires i < 124
  {
    if i < 13 then [7, 7, 5, 4, 6, 4, 5, 3, 6, 7, 3, 6, 6][i]
    else if i < 26 then [7, 7, 3, 8, 2, 6, 5, 4, 4, 3, 10, 4, 6][i - 13]
    else if i < 39 then [11, 6, 2, 7, 5, 5, 9, 6, 9, 9, 7, 10, 10][i - 26]
    else if i < 52 then [4, 6, 2, 3, 9, 4, 2, 6, 5, 7, 4, 5, 7][i - 39]
    else if i < 65 then [6, 6, 5, 6, 5, 5, 9, 7, 7, 3, 2, 4, 4][i - 52]
    else if i < 78 then [7, 3, 6, 4, 7, 6, 12, 6, 9, 4, 6, 5, 4][i - 65]
    else if i < 91 then [7, 6, 5, 6, 7, 5, 4, 5, 6, 5, 7, 3, 7][i - 78]
    else if i < 104 then [13, 2, 2, 4, 6, 6, 8, 5, 17, 12, 7, 8, 8][i - 91]
    else if i < 117 then [2, 4, 4, 4, 4, 4, 2, 2, 6, 5, 8, 5, 8][i - 104]
    else [3, 5, 5, 6, 4, 9, 3][i - 117]
  }

  function AOffset(i: nat): int
    requires i < 124
  {
    if i < 13 then [0, 2, 2, 8, 9, 14, 16, 20, 23, 25, 25, 29, 33][i]
    else if i < 26 then [36, 41, 46, 48, 53, 54, 59, 62, 65, 67, 69, 78, 81][i - 13]
    else if i < 39 then [86, 91, 95, 96, 101, 105, 109, 117, 122, 128, 136, 142, 152][i - 26]
    else if i < 52 then [159, 162, 162, 165, 167, 167, 171, 176, 179, 184, 184, 188, 192][i - 39]
    else if i < 65 then [199, 204, 209, 212, 218, 221, 225, 234, 240, 240, 240, 243, 246][i - 52]
    else if i < 78 then [250, 251, 255, 261, 265, 272, 278, 290, 296, 305, 307, 313, 318][i - 65]
    else if i < 91 then [320, 327, 332, 337, 343, 349, 354, 358, 361, 367, 371, 378, 380][i - 78]
    else if i < 104 then [387, 389, 391, 400, 404, 410, 416, 424, 429, 429, 445, 452, 459][i - 91]
    else if i < 117 then [460, 467, 471, 475, 479, 483, 486, 488, 490, 496, 500, 508, 513][i - 104]
    else [521, 524, 529, 534, 540, 544, 549][i - 117]
  }

  /** aCode: the token each entry stands for (parse.h). */
  function ACode(i: nat): (code: int)
    requires i < 124
    ensures code != 55
  {
    if i < 5 then [93, 56, 140, 70, 42][i]
    else if i < 10 then [72, 104, 79, 63, 113][i - 5]
    else if i < 15 then [74, 75, 31, 2, 77][i - 10]
    else if i < 20 then [142, 69, 24, 119, 16][i - 15]
    else if i < 25 then [98, 138, 11, 112, 139][i - 20]
    else if i < 30 then [117, 6, 58, 107, 98][i - 25]
    else if i < 35 then [141, 83, 9, 20, 13][i - 30]
    else if i < 40 then [118, 88, 105, 99, 131][i - 35]
    else if i < 45 then [81, 80, 111, 21, 21][i - 40]
    else if i < 50 then [27, 103, 3, 25, 92][i - 45]
    else if i < 55 then [98, 14, 62, 128, 127][i - 50]
    else if i < 60 then [110, 5, 98, 84, 32][i - 55]
    else if i < 65 then [35, 19, 78, 101, 31][i - 60]
    else if i < 70 then [65, 61, 109, 136, 53][i - 65]
    else if i < 75 then [17, 95, 71, 8, 124][i - 70]
    else if i < 80 then [108, 30, 4, 60, 82][i - 75]
    else if i < 85 then [57, 120, 91, 129, 137][i - 80]
    else if i < 90 then [130, 94, 59, 85, 28][i - 85]
    else if i < 95 then [100, 106, 15, 33, 66][i - 90]
    else if i < 100 then [67, 10, 68, 98, 95][i - 95]
    else if i < 105 then [95, 102, 7, 121, 29][i - 100]
    else if i < 110 then [114, 73, 123, 98, 31][i - 105]
    else if i < 115 then [64, 18, 34, 126, 86][i - 110]
    else if i < 120 then [98, 12, 87, 115, 125][i - 115]
    else [89, 90, 76, 116][i - 120]
  }

  /** The keywords, as keywordhash.h:152-275 lists them. */
  function Word(i: nat): seq<byte>
    requires i < 124
  {
    if i < 4 then [[R, E, I, N, D, E, X], [I, N, D, E, X, E, D], [I, N, D, E, X], [D, E, S, C]][i]
    else if i < 8 then [[E, S, C, A, P, E], [E, A, C, H], [C, H, E, C, K], [K, E, Y]][i - 4]
    else if i < 12 then [[B, E, F, O, R, E], [F, O, R, E, I, G, N], [F, O, R], [I, G, N, O, R, E]][i - 8]
    else if i < 16 then [[R, E, G, E, X, P], [E, X, P, L, A, I, N], [I, N, S, T, E, A, D], [A, D, D]][i - 12]
    else if i < 20 then [[D, A, T, A, B, A, S, E], [A, S], [S, E, L, E, C, T], [T, A, B, L, E]][i - 16]
    else if i < 24 then [[L, E, F, T], [T, H, E, N], [E, N, D], [D, E, F, E, R, R, A, B, L, E]][i - 20]
    else if i < 28 then [[E, L, S, E], [E, X, C, E, P, T], [T, R, A, N, S, A, C, T, I, O, N],
        [A, C, T, I, O, N]][i - 24]
    else if i < 32 then [[O, N], [N, A, T, U, R, A, L], [A, L, T, E, R], [R, A, I, S, E]][i - 28]
    else if i < 36 then [[E, X, C, L, U, S, I, V, E], [E, X, I, S, T, S], [S, A, V, E, P, O, I, N, T],
        [I, N, T, E, R, S, E, C, T]][i - 32]
    else if i < 40 then [[T, R, I, G, G, E, R], [R, E, F, E, R, E, N, C, E, S], [C, O, N, S, T, R, A, I, N, T],
        [I, N, T, O]][i - 36]
    else if i < 44 then [[O, F, F, S, E, T], [O, F], [S, E, T], [T, E, M, P, O, R, A, R, Y]][i - 40]
    else if i < 48 then [[T, E, M, P], [O, R], [U, N, I, Q, U, E], [Q, U, E, R, Y]][i - 44]
    else if i < 52 then [[W, I, T, H, O, U, T], [W, I, T, H], [O, U, T, E, R], [R, E, L, E, A, S, E]][i - 48]
    else if i < 56 then [[A, T, T, A, C, H], [H, A, V, I, N, G], [G, R, O, U, P], [U, P, D, A, T, E]][i - 52]
    else if i < 60 then [[B, E, G, I, N], [I, N, N, E, R], [R, E, C, U, R, S, I, V, E], [B, E, T, W, E, E, N]][i - 56]
    else if i < 64 then [[N, O, T, N, U, L, L], [N, O, T], [N, O], [N, U, L, L]][i - 60]
    else if i < 68 then [[L, I, K, E], [C, A, S, C, A, D, E], [A, S, C], [D, E, L, E, T, E]][i - 64]
    else if i < 72 then [[C, A, S, E], [C, O, L, L, A, T, E], [C, R, E, A, T, E],
        [C, U, R, R, E, N, T, US, D, A, T, E]][i - 68]
    else if i < 76 then [[D, E, T, A, C, H], [I, M, M, E, D, I, A, T, E], [J, O, I, N], [I, N, S, E, R, T]][i - 72]
    else if i < 80 then [[M, A, T, C, H], [P, L, A, N], [A, N, A, L, Y, Z, E], [P, R, A, G, M, A]][i - 76]
    else if i < 84 then [[A, B, O, R, T], [V, A, L, U, E, S], [V, I, R, T, U, A, L], [L, I, M, I, T]][i - 80]
    else if i < 88 then [[W, H, E, N], [W, H, E, R, E], [R, E, N, A, M, E], [A, F, T, E, R]][i - 84]
    else if i < 92 then [[R, E, P, L, A, C, E], [A, N, D], [D, E, F, A, U, L, T],
        [A, U, T, O, I, N, C, R, E, M, E, N, T]][i - 88]
    else if i < 96 then [[T, O], [I, N], [C, A, S, T], [C, O, L, U, M, N]][i - 92]
    else if i < 100 then [[C, O, M, M, I, T], [C, O, N, F, L, I, C, T], [C, R, O, S, S],
        [C, U, R, R, E, N, T, US, T, I, M, E, S, T, A, M, P]][i - 96]
    else if i < 104 then [[C, U, R, R, E, N, T, US, T, I, M, E], [P, R, I, M, A, R, Y], [D, E, F, E, R, R, E, D],
        [D, I, S, T, I, N, C, T]][i - 100]
    else if i < 108 then [[I, S], [D, R, O, P], [F, A, I, L], [F, R, O, M]][i - 104]
    else if i < 112 then [[F, U, L, L], [G, L, O, B], [B, Y], [I, F]][i - 108]
    else if i < 116 then [[I, S, N, U, L, L], [O, R, D, E, R], [R, E, S, T, R, I, C, T], [R, I, G, H, T]][i - 112]
    else if i < 120 then [[R, O, L, L, B, A, C, K], [R, O, W], [U, N, I, O, N], [U, S, I, N, G]][i - 116]
    else [[V, A, C, U, U, M], [V, I, E, W], [I, N, I, T, I, A, L, L, Y], [A, L, L]][i - 120]
  }

}
