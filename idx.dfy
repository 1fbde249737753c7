/** studio/util/idx.rs: a pair of IDX files (an IDX3 image file and an
    IDX1 label file, as MNIST ships them) read into inputs and one-hot
    labels. Counts are big-endian `u32`; the size checks use `usize`
    arithmetic that fails on overflow. */
module Idx {
  import opened Base
  import opened Text

  /** `u32::from_be_bytes` of the four bytes at i. */
  function ReadU32(b: seq<Byte>, i: nat): (r: nat)
    requires i + 4 <= |b|
    ensures r < 0x1_0000_0000
  {
    var b0: int := b[i];
    ((b0 * 256 + b[i + 1]) * 256 + b[i + 2]) * 256 + b[i + 3]
  }

  /** `u32::to_be_bytes`: the four bytes of x, most significant first. */
  function U32Bytes(x: nat): (r: seq<Byte>)
    requires x < 0x1_0000_0000
    ensures |r| == 4
  {
    [x / 0x100_0000, (x / 0x1_0000) % 256, (x / 256) % 256, x % 256]
  }

  /** Reading the four bytes of x gives back x, wherever they are. */
  lemma {:induction false} ReadU32Bytes(x: nat, before: seq<Byte>, after: seq<Byte>)
    requires x < 0x1_0000_0000
    ensures ReadU32(before + U32Bytes(x) + after, |before|) == x
  {
    var b := before + U32Bytes(x) + after;
    var i := |before|;
    assert b[i] == x / 0x100_0000 && b[i + 1] == (x / 0x1_0000) % 256;
    assert b[i + 2] == (x / 256) % 256 && b[i + 3] == x % 256;
    assert x / 0x1_0000 == (x / 0x100_0000) * 256 + (x / 0x1_0000) % 256;
    assert x / 256 == (x / 0x1_0000) * 256 + (x / 256) % 256;
    assert x == (x / 256) * 256 + x % 256;
  }

  /** `checked_mul` and `checked_add` on `usize`. */
  function CheckedMul(a: nat, b: nat): (r: Option<nat>)
    ensures r.Some? <==> a * b <= USIZE_MAX
    ensures r.Some? ==> r.value == a * b
  {
    if a * b <= USIZE_MAX then Some(a * b) else None
  }

  function CheckedAdd(a: nat, b: nat): (r: Option<nat>)
    ensures r.Some? <==> a + b <= USIZE_MAX
    ensures r.Some? ==> r.value == a + b
  {
    if a + b <= USIZE_MAX then Some(a + b) else None
  }

  /** The reasons parse_idx_pair gives for refusing a pair of files, with
      the values its messages show. EmptyImages is the panic of
      `chunks_exact(0)` when rows or cols is 0. */
  datatype IdxError =
    | ImageTooShort(len: nat)
    | ImageReserved(b0: Byte, b1: Byte)
    | ImageDtype(b2: Byte)
    | ImageDims(b3: Byte)
    | PixelsOverflow(rows: nat, cols: nat)
    | ItemsOverflow(nItems: nat, nPixels: nat)
    | LengthOverflow
    | ImageDataShort(nItems: nat, rows: nat, cols: nat, needed: nat, len: nat)
    | LabelTooShort(len: nat)
    | LabelReserved(b0: Byte, b1: Byte)
    | LabelDtype(b2: Byte)
    | LabelDims(b3: Byte)
    | CountMismatch(nItems: nat, labelCount: nat)
    | LabelDataShort(nItems: nat, len: nat, required: nat)
    | TooFewClasses(nClasses: nat)
    | EmptyImages
    | LabelOutOfRange(index: nat, classIndex: nat, nClasses: nat)

  /** An upper-case hexadecimal digit of v < 16. */
  function HexChar(v: nat): char
    requires v < 16
  {
    if v < 10 then ('0' as int + v) as char else ('A' as int + v - 10) as char
  }

  /** A byte as `0x` followed by two upper-case hex digits, as the source formats it. */
  function Hex(b: Byte): string
  {
    "0x" + [HexChar(b / 16), HexChar(b % 16)]
  }

  /** The text of each error. */
  function Message(e: IdxError): string
  {
    match e
    case ImageTooShort(len) =>
      "IDX image file too short: expected at least 16 header bytes, got " + NatToString(len) + "."
    case ImageReserved(b0, b1) =>
      "IDX image file: bytes 0-1 must be 0x00 0x00 (reserved), got " + Hex(b0) + " " + Hex(b1) + "."
    case ImageDtype(b2) => "IDX image file: byte 2 (dtype) must be 0x08 (uint8), got " + Hex(b2) + "."
    case ImageDims(b3) =>
      "IDX image file: byte 3 (dimensions) must be 3, got " + NatToString(b3)
      + ". This does not appear to be an IDX3 image file."
    case PixelsOverflow(rows, cols) =>
      "IDX image file: rows * cols overflows usize (rows=" + NatToString(rows) + ", cols=" + NatToString(cols) + ")."
    case ItemsOverflow(n, p) =>
      "IDX image file: n_items * n_pixels overflows usize (n_items=" + NatToString(n) + ", n_pixels="
      + NatToString(p) + ")."
    case LengthOverflow => "IDX image file: data length overflows usize."
    case ImageDataShort(n, rows, cols, needed, len) =>
      "IDX image file too short: header declares " + NatToString(n) + " items of " + NatToString(rows) + "×"
      + NatToString(cols) + " pixels (" + NatToString(needed) + " data bytes needed after header), but file is only "
      + NatToString(len) + " bytes total."
    case LabelTooShort(len) =>
      "IDX label file too short: expected at least 8 header bytes, got " + NatToString(len) + "."
    case LabelReserved(b0, b1) =>
      "IDX label file: bytes 0-1 must be 0x00 0x00 (reserved), got " + Hex(b0) + " " + Hex(b1) + "."
    case LabelDtype(b2) => "IDX label file: byte 2 (dtype) must be 0x08 (uint8), got " + Hex(b2) + "."
    case LabelDims(b3) =>
      "IDX label file: byte 3 (dimensions) must be 1, got " + NatToString(b3)
      + ". This does not appear to be an IDX1 label file."
    case CountMismatch(n, c) =>
      "IDX file mismatch: image file declares " + NatToString(n) + " items but label file declares "
      + NatToString(c) + "."
    case LabelDataShort(n, len, required) =>
      "IDX label file too short: header declares " + NatToString(n) + " labels but file is only "
      + NatToString(len) + " bytes (need at least " + NatToString(required) + " bytes)."
    case TooFewClasses(n) => "n_classes must be at least 2, got " + NatToString(n) + "."
    case EmptyImages => "chunk size must be non-zero"
    case LabelOutOfRange(i, c, n) =>
      "IDX label at index " + NatToString(i) + ": class index " + NatToString(c)
      + " is out of range for n_classes=" + NatToString(n) + "."
  }

  /** What the image file's header declares: the item count, rows, cols
      and pixels per image, once it is checked against the file. */
  datatype ImageHeader = ImageHeader(nItems: nat, rows: nat, cols: nat, nPixels: nat)

  /** The image file's checks, in the order parse_idx_pair makes them. */
  function CheckImage(img: seq<Byte>): (r: Outcome<ImageHeader, IdxError>)
    ensures r.Success? ==> (
      var h := r.value;
      |img| >= 16 && img[0] == 0 && img[1] == 0 && img[2] == 8 && img[3] == 3
      && h.nItems == ReadU32(img, 4) && h.rows == ReadU32(img, 8) && h.cols == ReadU32(img, 12)
      && h.nPixels == h.rows * h.cols && 16 + h.nItems * h.nPixels <= |img|)
  {
    if |img| < 16 then Failure(ImageTooShort(|img|))
    else if img[0] != 0 || img[1] != 0 then Failure(ImageReserved(img[0], img[1]))
    else if img[2] != 8 then Failure(ImageDtype(img[2]))
    else if img[3] != 3 then Failure(ImageDims(img[3]))
    else
      var nItems := ReadU32(img, 4);
      var rows := ReadU32(img, 8);
      var cols := ReadU32(img, 12);
      var nPixels := CheckedMul(rows, cols);
      if nPixels.None? then Failure(PixelsOverflow(rows, cols))
      else
        var data := CheckedMul(nItems, nPixels.value);
        if data.None? then Failure(ItemsOverflow(nItems, nPixels.value))
        else
          var required := CheckedAdd(16, data.value);
          if required.None? then Failure(LengthOverflow)
          else if |img| < required.value then
            Failure(ImageDataShort(nItems, rows, cols, data.value, |img|))
          else Success(ImageHeader(nItems, rows, cols, nPixels.value))
  }

  /** rows * cols never overflows a 64-bit `usize`: both are below 2^32. */
  lemma {:induction false} PixelsFit(img: seq<Byte>)
    requires |img| >= 16
    ensures CheckedMul(ReadU32(img, 8), ReadU32(img, 12)).Some?
  {
    var rows := ReadU32(img, 8);
    var cols := ReadU32(img, 12);
    MulMonotoneNat(rows, 0xFFFF_FFFF, cols);
    MulMonotoneNat(cols, 0xFFFF_FFFF, 0xFFFF_FFFF);
  }

  lemma {:induction false} MulMonotoneNat(a: nat, b: nat, c: nat)
    requires a <= b
    ensures a * c <= b * c
  {
  }

  /** The label file's checks, against the image file's item count. */
  function CheckLabels(lbl: seq<Byte>, nItems: nat): (r: Option<IdxError>)
    ensures r.None? <==> (|lbl| >= 8 && lbl[0] == 0 && lbl[1] == 0 && lbl[2] == 8 && lbl[3] == 1
                          && ReadU32(lbl, 4) == nItems && 8 + nItems <= |lbl|)
  {
    if |lbl| < 8 then Some(LabelTooShort(|lbl|))
    else if lbl[0] != 0 || lbl[1] != 0 then Some(LabelReserved(lbl[0], lbl[1]))
    else if lbl[2] != 8 then Some(LabelDtype(lbl[2]))
    else if lbl[3] != 1 then Some(LabelDims(lbl[3]))
    else
      var count := ReadU32(lbl, 4);
      if count != nItems then Some(CountMismatch(nItems, count))
      else if |lbl| < 8 + nItems then Some(LabelDataShort(nItems, |lbl|, 8 + nItems))
      else None
  }

  /** Where image i starts among the pixel bytes, for images of n bytes. */
  function Offset(i: nat, n: nat): nat { i * n }

  /** Image i of nItems images of width n ends inside them. */
  lemma {:induction false} RowFits(i: nat, nItems: nat, n: nat)
    requires i < nItems
    ensures Offset(i, n) + n <= nItems * n
  {
    MulLeft(i + 1, nItems, n);
    assert (i + 1) * n == i * n + n;
  }

  lemma {:induction false} MulLeft(a: nat, b: nat, n: nat)
    requires a <= b
    ensures a * n <= b * n
    decreases b - a
  {
    if a < b {
      MulLeft(a + 1, b, n);
      assert (a + 1) * n == a * n + n;
    }
  }

  /** Every image of nItems images of width n ends inside them. */
  lemma {:induction false} RowsFit(nItems: nat, n: nat)
    ensures forall i :: 0 <= i < nItems ==> Offset(i, n) + n <= nItems * n
  {
    forall i | 0 <= i < nItems
      ensures Offset(i, n) + n <= nItems * n
    {
      RowFits(i, nItems, n);
    }
  }

  /** The images: nItems chunks of nPixels bytes after the header, each
      byte scaled by 1/255. */
  function Images(img: seq<Byte>, nItems: nat, nPixels: nat): (r: seq<seq<real>>)
    requires 16 + nItems * nPixels <= |img|
    ensures |r| == nItems
    ensures forall i :: 0 <= i < nItems ==> |r[i]| == nPixels
    ensures forall i, j :: 0 <= i < nItems && 0 <= j < nPixels ==>
      16 + Offset(i, nPixels) + nPixels <= |img| && r[i][j] == PixelAt(img, nPixels, i, j)
  {
    RowsFit(nItems, nPixels);
    seq(nItems, i requires 0 <= i < nItems =>
      seq(nPixels, j requires 0 <= j < nPixels => PixelAt(img, nPixels, i, j)))
  }

  /** Pixel j of image i, as `px as f64 / 255.0`; it lies in [0, 1]. */
  function PixelAt(img: seq<Byte>, nPixels: nat, i: nat, j: nat): (r: real)
    requires j < nPixels && 16 + Offset(i, nPixels) + nPixels <= |img|
    ensures 0.0 <= r <= 1.0
    ensures r * 255.0 == img[16 + Offset(i, nPixels) + j] as real
  {
    img[16 + Offset(i, nPixels) + j] as real / 255.0
  }

  /** A label byte that is not a class index below n. */
  predicate OutOfRange(n: int, b: Byte)
  {
    b >= n
  }

  /** The labels: each byte one-hot over n classes, or the error at the
      first byte that is out of range. */
  function LabelsOf(data: seq<Byte>, n: nat): (r: Outcome<seq<seq<real>>, IdxError>)
  {
    var bad := FirstWhere<int, Byte>(data, OutOfRange, n, 0);
    if bad.Some? then Failure(LabelOutOfRange(bad.value, data[bad.value], n))
    else
      assert forall i :: 0 <= i < |data| ==> !OutOfRange(n, data[i]);
      Success(OneHots(data, n))
  }

  /** Each class index one-hot over n classes. */
  function OneHots(data: seq<Byte>, n: nat): (r: seq<seq<real>>)
    requires forall i :: 0 <= i < |data| ==> data[i] < n
    ensures |r| == |data| && forall i :: 0 <= i < |data| ==> r[i] == OneHotVector(n, data[i])
  {
    seq(|data|, i requires 0 <= i < |data| => OneHotVector(n, data[i]))
  }

  /** The label loop: each byte checked, then pushed as a one-hot vector. */
  method BuildLabels(data: seq<Byte>, n: nat) returns (r: Outcome<seq<seq<real>>, IdxError>)
    ensures r == LabelsOf(data, n)
  {
    var labels: seq<seq<real>> := [];
    for i := 0 to |data|
      invariant FirstWhere<int, Byte>(data, OutOfRange, n, i) == FirstWhere<int, Byte>(data, OutOfRange, n, 0)
      invariant forall k :: 0 <= k < i ==> data[k] < n
      invariant labels == OneHots(data[..i], n)
    {
      var c := data[i];
      if c >= n {
        assert OutOfRange(n, c);
        return Failure(LabelOutOfRange(i, c, n));
      }
      assert !OutOfRange(n, c);
      var oneHot := seq(n, j => 0.0);
      oneHot := oneHot[c := 1.0];
      assert oneHot == OneHotVector(n, c);
      labels := labels + [oneHot];
      assert data[..i + 1] == data[..i] + [c];
    }
    assert data[..|data|] == data;
    return Success(labels);
  }

  /** What parse_idx_pair returns: the image checks, the label checks, the
      check on the number of classes, then the images and the labels. */
  function IdxPairOf(img: seq<Byte>, lbl: seq<Byte>, nClasses: nat): Outcome<(seq<seq<real>>, seq<seq<real>>), IdxError>
  {
    var h := CheckImage(img);
    if h.Failure? then Failure(h.error)
    else
      var e := CheckLabels(lbl, h.value.nItems);
      if e.Some? then Failure(e.value)
      else if nClasses < 2 then Failure(TooFewClasses(nClasses))
      else if h.value.nPixels == 0 then Failure(EmptyImages)
      else
        var labels := LabelsOf(lbl[8..8 + h.value.nItems], nClasses);
        if labels.Failure? then Failure(labels.error)
        else Success((Images(img, h.value.nItems, h.value.nPixels), labels.value))
  }

  /** parse_idx_pair. */
  method ParseIdxPair(img: seq<Byte>, lbl: seq<Byte>, nClasses: nat)
    returns (r: Outcome<(seq<seq<real>>, seq<seq<real>>), IdxError>)
    ensures r == IdxPairOf(img, lbl, nClasses)
  {
    var h := CheckImage(img);
    if h.Failure? {
      return Failure(h.error);
    }
    var nItems := h.value.nItems;
    var e := CheckLabels(lbl, nItems);
    if e.Some? {
      return Failure(e.value);
    }
    if nClasses < 2 {
      return Failure(TooFewClasses(nClasses));
    }
    if h.value.nPixels == 0 {
      return Failure(EmptyImages);
    }
    var inputs := Images(img, nItems, h.value.nPixels);
    var labels := BuildLabels(lbl[8..8 + nItems], nClasses);
    if labels.Failure? {
      return Failure(labels.error);
    }
    return Success((inputs, labels.value));
  }

  /** A pair that parses has well-formed headers, one input of rows * cols
      pixels per declared item (their values are `IdxPairPixels`), and one
      one-hot label of length nClasses (at least 2) per item, taken from the
      label bytes in order. */
  lemma {:induction false} IdxPairShape(img: seq<Byte>, lbl: seq<Byte>, nClasses: nat)
    requires IdxPairOf(img, lbl, nClasses).Success?
    ensures var v := IdxPairOf(img, lbl, nClasses).value;
      var nItems := ReadU32(img, 4);
      && |img| >= 16 && img[..4] == [0, 0, 8, 3]
      && |lbl| >= 8 + nItems && lbl[..4] == [0, 0, 8, 1] && ReadU32(lbl, 4) == nItems
      && nClasses >= 2
      && |v.0| == |v.1| == nItems
      && (forall i :: 0 <= i < nItems ==> |v.0[i]| == ReadU32(img, 8) * ReadU32(img, 12) > 0)
      && (forall i :: 0 <= i < nItems ==> lbl[8 + i] < nClasses && v.1[i] == OneHotVector(nClasses, lbl[8 + i]))
  {
    var h := CheckImage(img).value;
    var data := lbl[8..8 + h.nItems];
    assert forall i :: 0 <= i < h.nItems ==> data[i] == lbl[8 + i];
    var bad := FirstWhere<int, Byte>(data, OutOfRange, nClasses, 0);
    assert bad.None?;
    assert forall i :: 0 <= i < h.nItems ==> !OutOfRange(nClasses, data[i]);
  }

  /** The inputs of a pair that parses are the image bytes in order, each
      divided by 255, so every pixel lies in [0, 1]; the header's counts are
      the item count and rows * cols (`CheckImage`). */
  lemma {:induction false} IdxPairPixels(img: seq<Byte>, lbl: seq<Byte>, nClasses: nat)
    requires IdxPairOf(img, lbl, nClasses).Success?
    ensures var v := IdxPairOf(img, lbl, nClasses).value;
      var nItems := CheckImage(img).value.nItems;
      var nPixels := CheckImage(img).value.nPixels;
      |v.0| == nItems
      && (forall i :: 0 <= i < nItems ==> |v.0[i]| == nPixels)
      && (forall i :: 0 <= i < nItems ==> 16 + Offset(i, nPixels) + nPixels <= |img|)
      && (forall i, j :: 0 <= i < nItems && 0 <= j < nPixels ==>
            0.0 <= v.0[i][j] <= 1.0 && v.0[i][j] * 255.0 == img[16 + Offset(i, nPixels) + j] as real)
  {
    var h := CheckImage(img).value;
    assert IdxPairOf(img, lbl, nClasses).value.0 == Images(img, h.nItems, h.nPixels);
    ImagesScaled(img, h.nItems, h.nPixels);
  }

  /** Every image ends inside the bytes, and every pixel is its byte over
      255, in [0, 1]. */
  lemma {:induction false} ImagesScaled(img: seq<Byte>, nItems: nat, nPixels: nat)
    requires 16 + nItems * nPixels <= |img|
    ensures forall i :: 0 <= i < nItems ==> 16 + Offset(i, nPixels) + nPixels <= |img|
    ensures forall i, j :: 0 <= i < nItems && 0 <= j < nPixels ==>
      0.0 <= Images(img, nItems, nPixels)[i][j] <= 1.0
      && Images(img, nItems, nPixels)[i][j] * 255.0 == img[16 + Offset(i, nPixels) + j] as real
  {
    RowsFit(nItems, nPixels);
    forall i, j | 0 <= i < nItems && 0 <= j < nPixels
      ensures 0.0 <= Images(img, nItems, nPixels)[i][j] <= 1.0
        && Images(img, nItems, nPixels)[i][j] * 255.0 == img[16 + Offset(i, nPixels) + j] as real
    {
      assert Images(img, nItems, nPixels)[i][j] == PixelAt(img, nPixels, i, j);
    }
  }
}
