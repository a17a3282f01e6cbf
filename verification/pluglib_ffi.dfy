/**
 * The FFI-safe value types of the plugin library
 * (server/plugins/lib/src/ffi.rs). Raw pointers become the memory they point
 * to: a borrowed slice is the sequence visible from its pointer plus a
 * length, a borrowed C string is the characters from its pointer on (which
 * hold a nul somewhere), and the two owning types are classes over an array
 * that their methods read and update in place.
 *
 * Strings are sequences of characters. A nul byte of UTF-8 text is exactly
 * the character U+0000, so "the bytes before the first nul" and "the
 * characters before the first `'\0'`" are the same text. Positions are a
 * different matter: Rust counts them in bytes, so where a position is
 * reported (`NulError`) it is the UTF-8 length of the text before it.
 */
module PluglibFfi {
  import W = Wrappers
  import opened StdInt
  import opened StdCmp
  import opened StdStr
  import opened TimeTypes
  import opened SqlJson

  const NUL: char := '\0'

  // ------------------------------------------------------------- FfiSlice

  /** `FfiSlice<T>`: the memory its pointer designates, and a length. */
  datatype FfiSlice<T> = FfiSlice(mem: seq<T>, len: nat)
  {
    /** The length never exceeds the memory the pointer designates. */
    predicate Valid() {
      len <= |mem|
    }

    /** `len`. */
    function Len(): nat {
      len
    }

    /** `is_empty`. */
    predicate IsEmpty() {
      len == 0
    }

    /** `to_slice`: the first `len` elements from the pointer on. */
    function ToSlice(): (r: seq<T>)
      requires Valid()
      ensures |r| == Len()
      ensures r <= mem
    {
      mem[..len]
    }
  }

  /** `FfiSlice::new` (and `From<&[T]>`). */
  function SliceNew<T>(slice: seq<T>): (r: FfiSlice<T>)
    ensures r.Valid()
    ensures r.ToSlice() == slice
    ensures r.Len() == |slice|
    ensures r.IsEmpty() <==> slice == []
  {
    FfiSlice(slice, |slice|)
  }

  // -------------------------------------------------------- FfiBoxedSlice

  /** `FfiBoxedSlice<T>`: an owned heap buffer and its length. */
  class FfiBoxedSlice<T> {
    var ptr: array<T>
    var len: nat

    /** The buffer is exactly the boxed slice it was built from. */
    ghost predicate Valid()
      reads this
    {
      len == ptr.Length
    }

    /** The elements the buffer holds. */
    function Contents(): seq<T>
      reads this, ptr
      requires Valid()
    {
      ptr[..]
    }

    /** `FfiBoxedSlice::new` (and `From<Box<[T]>>`, `FromIterator`): takes over the elements in order. */
    constructor (slice: seq<T>)
      ensures Valid() && fresh(ptr)
      ensures Contents() == slice
    {
      ptr := new T[|slice|](i requires 0 <= i < |slice| => slice[i]);
      len := |slice|;
    }

    /** `Default::default()`: `new` on the empty boxed slice. */
    static method Default() returns (b: FfiBoxedSlice<T>)
      ensures fresh(b) && fresh(b.ptr) && b.Valid()
      ensures b.Contents() == []
    {
      b := new FfiBoxedSlice([]);
    }

    /** `len`. */
    method Len() returns (n: nat)
      requires Valid()
      ensures n == |Contents()|
    {
      n := len;
    }

    /** `is_empty`. */
    method IsEmpty() returns (b: bool)
      requires Valid()
      ensures b <==> Contents() == []
    {
      b := len == 0;
    }

    /** `as_slice`: a borrowed slice over the same buffer. */
    method AsSlice() returns (s: FfiSlice<T>)
      requires Valid()
      ensures s.Valid() && s.ToSlice() == Contents()
    {
      s := FfiSlice(ptr[..], len);
    }

    /** `to_slice` (and `deref`). */
    method ToSlice() returns (s: seq<T>)
      requires Valid()
      ensures s == Contents()
    {
      s := ptr[..len];
    }

    /** `clone`: a fresh buffer with equal contents. */
    method Clone() returns (c: FfiBoxedSlice<T>)
      requires Valid()
      ensures fresh(c) && fresh(c.ptr) && c.Valid()
      ensures c.Contents() == Contents()
    {
      var s := ToSlice();
      c := new FfiBoxedSlice(s);
    }

    /** Assignment through `deref_mut`: one element changes, the length does not. */
    method Set(i: nat, x: T)
      requires Valid() && i < len
      modifies ptr
      ensures Valid()
      ensures Contents() == old(Contents())[i := x]
    {
      ptr[i] := x;
    }

    /** A loop over `iter_mut` applying `f` to every element in place; the length is kept. */
    method UpdateEach(f: T -> T)
      requires Valid()
      modifies ptr
      ensures Valid() && |Contents()| == |old(Contents())|
      ensures forall i :: 0 <= i < |Contents()| ==> Contents()[i] == f(old(Contents())[i])
    {
      var i := 0;
      while i < len
        invariant 0 <= i <= len == ptr.Length
        invariant forall k :: 0 <= k < i ==> ptr[k] == f(old(ptr[k]))
        invariant forall k :: i <= k < len ==> ptr[k] == old(ptr[k])
      {
        ptr[i] := f(ptr[i]);
        i := i + 1;
      }
    }
  }

  // --------------------------------------------------------------- FfiStr

  /** The memory a borrowed C string pointer designates. */
  datatype FfiStrAt = FfiStrAt(mem: string)

  /** `FfiStr<'s>`: a pointer to characters that hold a nul somewhere. */
  type FfiStr = s: FfiStrAt | NUL in s.mem witness FfiStrAt([NUL])

  /** `CStr::from_bytes_until_nul`'s error: no nul in the input. */
  datatype FromBytesUntilNulError = FromBytesUntilNulError

  /**
   * `FfiStr::new`: succeeds iff the text holds a nul. An interior nul is
   * accepted and ends the string there.
   */
  function FfiStrNew(s: string): (r: W.Result<FfiStr, FromBytesUntilNulError>)
    ensures r.Ok? <==> NUL in s
    ensures r.Ok? ==> r.value.mem == s
  {
    if NUL in s then W.Ok(FfiStrAt(s)) else W.Err(FromBytesUntilNulError)
  }

  /** `FfiStr::to_str` (and `deref`): the characters before the first nul. */
  function FfiStrToStr(s: FfiStr): (r: string)
    ensures NUL !in r
    ensures r <= s.mem && |r| < |s.mem| && s.mem[|r|] == NUL
  {
    s.mem[..IndexOf(s.mem, NUL)]
  }

  /** What `to_str` gives back after `new` is the text up to its first nul. */
  lemma FfiStrRoundTrip(s: string)
    requires NUL in s
    ensures FfiStrNew(s).Ok?
    ensures FfiStrToStr(FfiStrNew(s).value) == s[..IndexOf(s, NUL)]
    ensures NUL !in s[..|s| - 1] && s[|s| - 1] == NUL ==> FfiStrToStr(FfiStrNew(s).value) == s[..|s| - 1]
  {
    if NUL !in s[..|s| - 1] && s[|s| - 1] == NUL {
      assert IndexOf(s, NUL) == |s| - 1;
    }
  }

  /** An interior nul truncates rather than fails: `"a\0b\0"` reads back as `"a"`. */
  lemma FfiStrInteriorNul()
    ensures FfiStrNew("a\0b\0").Ok?
    ensures FfiStrToStr(FfiStrNew("a\0b\0").value) == "a"
  {
    assert IndexOf("a\0b\0", NUL) == 1;
  }

  /** `From<&CStr>`: a C string is its text followed by one nul. */
  function FfiStrFromCStr(text: string): (r: FfiStr)
    requires NUL !in text
    ensures FfiStrToStr(r) == text
  {
    FirstNulAfterAppend(text);
    FfiStrAt(text + [NUL])
  }

  /**
   * `new_ffistr!(s)`: the literal with a nul appended, which always
   * constructs; its text is the literal up to its first nul, that is the
   * whole literal when it has none.
   */
  function NewFfiStr(lit: string): FfiStr {
    FfiStrAt(lit + [NUL])
  }

  lemma NewFfiStrSpec(lit: string)
    ensures FfiStrNew(lit + [NUL]) == W.Ok(NewFfiStr(lit))
    ensures NUL !in lit ==> FfiStrToStr(NewFfiStr(lit)) == lit
    ensures NUL in lit ==> FfiStrToStr(NewFfiStr(lit)) == lit[..IndexOf(lit, NUL)]
  {
    FirstNulAfterAppend(lit);
  }

  /** Appending a nul does not move an earlier first nul. */
  lemma FirstNulAfterAppend(lit: string)
    ensures IndexOf(lit + [NUL], NUL) == if NUL in lit then IndexOf(lit, NUL) else |lit|
  {
    var mem := lit + [NUL];
    var k := IndexOf(mem, NUL);
    if NUL in lit {
      var j := IndexOf(lit, NUL);
      assert mem[j] == NUL && k <= j;
      assert lit[k] == NUL;
    }
  }

  // ------------------------------------------------------------ FfiString

  /** `NulError`: the byte offset of the first nul, and the rejected text. */
  datatype NulError = NulError(position: nat, bytes: string)

  /**
   * The error `CString::new` reports: the first nul sits right after the
   * nul-free prefix `s[..k]`, and its position is that prefix's length in bytes.
   */
  predicate ReportsFirstNul(s: string, e: NulError) {
    exists k :: 0 <= k < |s| && s[k] == NUL && NUL !in s[..k] && e == NulError(Utf8Len(s[..k]), s)
  }

  /** `CString::new`: fails iff the text holds a nul, reporting the first one. */
  function CStringNew(s: string): (r: W.Result<string, NulError>)
    ensures r.Ok? <==> NUL !in s
    ensures r.Ok? ==> r.value == s + [NUL]
    ensures r.Err? ==> ReportsFirstNul(s, r.error)
  {
    if NUL in s then W.Err(NulError(Utf8Len(s[..IndexOf(s, NUL)]), s)) else W.Ok(s + [NUL])
  }

  /** Only one error fits a text: the first nul is unique. */
  lemma ReportsFirstNulUnique(s: string, e: NulError, e': NulError)
    requires ReportsFirstNul(s, e) && ReportsFirstNul(s, e')
    ensures e == e'
  {
    var k :| 0 <= k < |s| && s[k] == NUL && NUL !in s[..k] && e == NulError(Utf8Len(s[..k]), s);
    var k' :| 0 <= k' < |s| && s[k'] == NUL && NUL !in s[..k'] && e' == NulError(Utf8Len(s[..k']), s);
    assert forall i :: 0 <= i < k ==> s[..k][i] == s[i];
    assert forall i :: 0 <= i < k' ==> s[..k'][i] == s[i];
  }

  /** The position counts bytes, not characters: in `"é\0"` the nul is at byte 2. */
  lemma NulPositionInBytes()
    ensures CStringNew("\U{e9}\0") == W.Err(NulError(2, "\U{e9}\0"))
  {
    assert IndexOf("\U{e9}\0", NUL) == 1;
    assert "\U{e9}\0"[..1] == "\U{e9}";
  }

  /** On ASCII text the byte position is the character index of the nul. */
  lemma NulPositionAscii(s: string)
    requires NUL in s
    requires forall i :: 0 <= i < |s| ==> s[i] as int < 0x80
    ensures CStringNew(s).error.position == IndexOf(s, NUL)
  {
    var k := IndexOf(s, NUL);
    Utf8LenAscii(s[..k]);
  }

  /** `FfiString`: an owned, nul-terminated buffer. */
  class FfiString {
    var ptr: array<char>

    /** The buffer ends with the only nul it holds. */
    ghost predicate Valid()
      reads this, ptr
    {
      ptr.Length >= 1 && ptr[ptr.Length - 1] == NUL && NUL !in ptr[..ptr.Length - 1]
    }

    /** The text the buffer holds, without its terminator. */
    function Text(): string
      reads this, ptr
      requires Valid()
    {
      ptr[..ptr.Length - 1]
    }

    /** `CString::into_raw` on a string without nul. */
    constructor FromCString(s: string)
      requires NUL !in s
      ensures Valid() && fresh(ptr)
      ensures Text() == s
    {
      var buf := s + [NUL];
      ptr := new char[|buf|](i requires 0 <= i < |buf| => buf[i]);
      new;
      assert ptr[..] == buf;
      assert ptr[..ptr.Length - 1] == s;
    }

    /** `strlen`: the number of characters before the terminator. */
    method StrLen() returns (n: nat)
      requires Valid()
      ensures n == |Text()|
    {
      n := 0;
      while ptr[n] != NUL
        invariant 0 <= n < ptr.Length
        invariant forall k :: 0 <= k < n ==> ptr[k] != NUL
        decreases ptr.Length - n
      {
        assert ptr[..ptr.Length - 1][n] == ptr[n];
        n := n + 1;
      }
    }

    /** `to_str` (and `deref`): the characters up to the terminator. */
    method ToStr() returns (s: string)
      requires Valid()
      ensures s == Text()
    {
      var n := StrLen();
      s := ptr[..n];
    }

    /** `as_str`: a borrowed C string over the same buffer, reading back the same text. */
    method AsStr() returns (f: FfiStr)
      requires Valid()
      ensures FfiStrToStr(f) == Text()
    {
      assert ptr[..] == Text() + [NUL];
      FirstNulAfterAppend(Text());
      f := FfiStrAt(ptr[..]);
    }

    /** `clone`: `FfiString::new(self.to_str())`, which cannot fail. */
    method Clone() returns (c: FfiString)
      requires Valid()
      ensures fresh(c) && fresh(c.ptr) && c.Valid()
      ensures c.Text() == Text()
    {
      var s := ToStr();
      var r := New(s);
      assert r.Ok?;
      c := r.value;
    }

    /** `FfiString::new` (and `TryFrom<String>`, `TryFrom<Box<str>>`): fails iff the text holds a nul. */
    static method New(s: string) returns (r: W.Result<FfiString, NulError>)
      ensures r.Err? <==> NUL in s
      ensures r.Err? ==> ReportsFirstNul(s, r.error)
      ensures r.Ok? ==> fresh(r.value) && fresh(r.value.ptr) && r.value.Valid() && r.value.Text() == s
    {
      var checked := CStringNew(s);
      if checked.Err? {
        r := W.Err(checked.error);
      } else {
        var f := new FfiString.FromCString(s);
        r := W.Ok(f);
      }
    }
  }

  // -------------------------------------------------------------- FfiDate

  /** `FfiDate`: a Julian day number, as an `i32`. */
  datatype FfiDate = FfiDate(day: i32)

  /** `From<Date> for FfiDate`: the Julian day. */
  function FromDate(d: Date): (r: FfiDate)
    ensures InDateRange(r.day)
  {
    FfiDate(d)
  }

  /** `From<FfiDate> for Date`: panics (`unreachable!`) outside the supported range. */
  function ToDate(f: FfiDate): (r: W.Fallible<Date>)
    ensures r.Panics? <==> !InDateRange(f.day)
  {
    if InDateRange(f.day) then W.Returns(f.day) else W.Panics
  }

  /** The derived order: plain integer order on the day count. */
  function DateCmp(a: FfiDate, b: FfiDate): Ordering {
    Compare(a.day, b.day)
  }

  /** Date to `FfiDate` and back is the identity; and back again when the day is in range. */
  lemma DateRoundTrip(d: Date, f: FfiDate)
    ensures ToDate(FromDate(d)) == W.Returns(d)
    ensures ToDate(f).Returns? ==> FromDate(ToDate(f).value) == f
  {
  }

  /** The conversion keeps the chronological order of dates. */
  lemma DateCmpIsChronological(d1: Date, d2: Date)
    ensures DateCmp(FromDate(d1), FromDate(d2)) == Compare(d1, d2)
  {
  }

  /**
   * What `format(&Iso8601::DEFAULT)` of the `time` crate does with a date on
   * its own and with a time on its own: whether it renders one. The crate is
   * not part of this model, so its outcome is a parameter; every conversion
   * that formats reaches `unreachable!()` when the formatter does not render.
   */
  datatype IsoFormatter = IsoFormatter(formatsDate: bool, formatsTime: bool)

  /** `From<FfiDate> for Value` and `ToSql`: ISO 8601 text, panicking out of range or unformatted. */
  function DateToValue(f: FfiDate, iso: IsoFormatter): (r: W.Fallible<SqlValue>)
    ensures r.Panics? <==> !InDateRange(f.day) || !iso.formatsDate
    ensures r.Returns? ==> r.value == IsoDateText(f.day)
  {
    match ToDate(f)
    case Returns(d) => if iso.formatsDate then W.Returns(IsoDateText(d)) else W.Panics
    case Panics => W.Panics
  }

  /** `From<FfiDate> for serde_json::Value`: an ISO 8601 string, panicking out of range or unformatted. */
  function DateToJson(f: FfiDate, iso: IsoFormatter): (r: W.Fallible<Json>)
    ensures r.Panics? <==> !InDateRange(f.day) || !iso.formatsDate
    ensures r.Returns? ==> r.value == JIsoDate(f.day)
  {
    match ToDate(f)
    case Returns(d) => if iso.formatsDate then W.Returns(JIsoDate(d)) else W.Panics
    case Panics => W.Panics
  }

  /** `Serialize for FfiDate`: the date's own serialisation, panicking out of range. */
  function DateSerialize(f: FfiDate): (r: W.Fallible<Json>)
    ensures r.Panics? <==> !InDateRange(f.day)
    ensures r.Returns? ==> r.value == JSerDate(f.day)
  {
    match ToDate(f)
    case Returns(d) => W.Returns(JSerDate(d))
    case Panics => W.Panics
  }

  // -------------------------------------------------------------- FfiTime

  /** The three bytes of an `FfiTime`. */
  datatype FfiTimeFields = FfiTimeFields(hour: u8, minute: u8, second: u8)

  /**
   * `FfiTime`: its fields are private and it is only built from a `Time`, so
   * every value holds an hour, minute and second within range.
   */
  type FfiTime = t: FfiTimeFields | t.hour < 24 && t.minute < 60 && t.second < 60
    witness FfiTimeFields(0, 0, 0)

  /** `From<Time> for FfiTime`: `as_hms`, dropping the nanoseconds. */
  function FromTime(t: ValidTime): (r: FfiTime)
    ensures (r.hour, r.minute, r.second) == (t.hour, t.minute, t.second)
  {
    FfiTimeFields(t.hour, t.minute, t.second)
  }

  /** `From<FfiTime> for Time`: `from_hms`, whose `unreachable!` branch cannot be taken. */
  function ToTime(f: FfiTime): (r: ValidTime)
    ensures r.nanosecond == 0
    ensures FromTime(r) == f
  {
    Time(f.hour, f.minute, f.second, 0)
  }

  /** Time to `FfiTime` and back keeps everything but the sub-second part. */
  lemma TimeRoundTrip(t: ValidTime)
    ensures ToTime(FromTime(t)) == t.(nanosecond := 0)
    ensures ToTime(FromTime(t)) == t <==> t.nanosecond == 0
  {
  }

  /** `Ord for FfiTime`: hour, then minute, then second. */
  function TimeCmp(a: FfiTime, b: FfiTime): (r: Ordering)
    ensures r == Equal <==> a == b
    ensures r == Less <==> LexLess((a.hour, a.minute, a.second), (b.hour, b.minute, b.second))
  {
    Compare(a.hour, b.hour).Then(Compare(a.minute, b.minute)).Then(Compare(a.second, b.second))
  }

  /**
   * The conversion is monotone: it never inverts the order of two times; a
   * strict order survives unless the times differ only below the second.
   */
  lemma FromTimeMonotone(a: ValidTime, b: ValidTime)
    ensures TimeLess(a, b) ==> TimeCmp(FromTime(a), FromTime(b)) != Greater
    ensures TimeCmp(FromTime(a), FromTime(b)) == Less ==> TimeLess(a, b)
  {
  }

  /** `From<FfiTime> for Value` and `ToSql`: ISO 8601 text, panicking when unformatted. */
  function TimeToValue(f: FfiTime, iso: IsoFormatter): (r: W.Fallible<SqlValue>)
    ensures r.Panics? <==> !iso.formatsTime
    ensures r.Returns? ==> r.value.IsoTimeText? && FromTime(r.value.time) == f
  {
    if iso.formatsTime then W.Returns(IsoTimeText(ToTime(f))) else W.Panics
  }

  /** `From<FfiTime> for serde_json::Value`: an ISO 8601 string, panicking when unformatted. */
  function TimeToJson(f: FfiTime, iso: IsoFormatter): (r: W.Fallible<Json>)
    ensures r.Panics? <==> !iso.formatsTime
    ensures r.Returns? ==> r.value.JIsoTime? && FromTime(r.value.time) == f
  {
    if iso.formatsTime then W.Returns(JIsoTime(ToTime(f))) else W.Panics
  }

  // ------------------------------------------------- FfiOption, FfiResult

  /** `FfiOption<T>`. */
  datatype FfiOption<T> = FfiSome(value: T) | FfiNone

  /** `From<Option<T>> for FfiOption<T>`. */
  function OptionToFfi<T>(o: W.Option<T>): (r: FfiOption<T>)
    ensures r.FfiSome? <==> o.Some?
    ensures r.FfiSome? ==> r.value == o.value
  {
    match o
    case Some(v) => FfiSome(v)
    case None => FfiNone
  }

  /** `From<FfiOption<T>> for Option<T>` (and `as_ref`). */
  function FfiToOption<T>(f: FfiOption<T>): (r: W.Option<T>)
    ensures r.Some? <==> f.FfiSome?
    ensures r.Some? ==> r.value == f.value
  {
    match f
    case FfiSome(v) => W.Some(v)
    case FfiNone => W.None
  }

  /** `From<T> for FfiOption<T>`: `Some`. */
  function ValueToFfiOption<T>(v: T): (r: FfiOption<T>)
    ensures FfiToOption(r) == W.Some(v)
  {
    FfiSome(v)
  }

  /** The two `Option` conversions are mutual inverses. */
  lemma OptionRoundTrip<T>(o: W.Option<T>, f: FfiOption<T>)
    ensures FfiToOption(OptionToFfi(o)) == o
    ensures OptionToFfi(FfiToOption(f)) == f
  {
  }

  /** `FfiResult<T, E>`. */
  datatype FfiResult<T, E> = FfiOk(value: T) | FfiErr(error: E)

  /** `From<Result<T, E>> for FfiResult<T, E>`. */
  function ResultToFfi<T, E>(r: W.Result<T, E>): (f: FfiResult<T, E>)
    ensures f.FfiOk? <==> r.Ok?
    ensures f.FfiOk? ==> f.value == r.value
    ensures f.FfiErr? ==> f.error == r.error
  {
    match r
    case Ok(v) => FfiOk(v)
    case Err(e) => FfiErr(e)
  }

  /** `From<FfiResult<T, E>> for Result<T, E>`. */
  function FfiToResult<T, E>(f: FfiResult<T, E>): (r: W.Result<T, E>)
    ensures r.Ok? <==> f.FfiOk?
    ensures r.Ok? ==> r.value == f.value
    ensures r.Err? ==> r.error == f.error
  {
    match f
    case FfiOk(v) => W.Ok(v)
    case FfiErr(e) => W.Err(e)
  }

  /** `From<T> for FfiResult<T, E>`: `Ok`. */
  function ValueToFfiResult<T, E>(v: T): (r: FfiResult<T, E>)
    ensures FfiToResult(r) == W.Ok(v)
  {
    FfiOk(v)
  }

  /** The two `Result` conversions are mutual inverses. */
  lemma ResultRoundTrip<T, E>(r: W.Result<T, E>, f: FfiResult<T, E>)
    ensures FfiToResult(ResultToFfi(r)) == r
    ensures ResultToFfi(FfiToResult(f)) == f
  {
  }
}
