/**
 * The ground-truth label reader of the classifier's evaluation script
 * (backend/model/test/test.py, `parse_label`): a disposition cell becomes
 * `True` for a candidate, `False` for a confirmed planet, and `None` when it
 * cannot be read.
 *
 * `float()` on a string is host number parsing and is a parameter,
 * `parseFloat`, which gives `None` where Python raises `ValueError`.
 */
module ParseLabel {
  import opened Wrappers
  import opened PyValues

  /** The characters `str.isspace` accepts. */
  predicate IsSpace(c: char) {
    var n := c as int;
    (9 <= n <= 13) || (28 <= n <= 32) || n == 0x85 || n == 0xA0 || n == 0x1680
    || (0x2000 <= n <= 0x200A) || n == 0x2028 || n == 0x2029 || n == 0x202F || n == 0x205F
    || n == 0x3000
  }

  function StripLeft(s: string): (r: string)
    ensures |r| <= |s| && r == s[|s| - |r|..]
    ensures r == [] || !IsSpace(r[0])
    ensures forall i :: 0 <= i < |s| - |r| ==> IsSpace(s[i])
  {
    if s != [] && IsSpace(s[0]) then StripLeft(s[1..]) else s
  }

  function StripRight(s: string): (r: string)
    ensures |r| <= |s| && r == s[..|r|]
    ensures r == [] || !IsSpace(r[|r| - 1])
    ensures forall i :: |r| <= i < |s| ==> IsSpace(s[i])
  {
    if s != [] && IsSpace(s[|s| - 1]) then StripRight(s[..|s| - 1]) else s
  }

  /** `s.strip()`: whitespace removed from both ends, nothing else. */
  function Strip(s: string): (r: string)
    ensures r == [] || (!IsSpace(r[0]) && !IsSpace(r[|r| - 1]))
    ensures exists i, j :: 0 <= i <= j <= |s| && r == s[i..j]
              && (forall k :: 0 <= k < i ==> IsSpace(s[k]))
              && (forall k :: j <= k < |s| ==> IsSpace(s[k]))
  {
    var left := StripLeft(s);
    var r := StripRight(left);
    StripSlice(s, left, r);
    r
  }

  /** The two halves of `Strip` leave a slice of `s` with only whitespace cut off. */
  lemma StripSlice(s: string, left: string, r: string)
    requires |left| <= |s| && left == s[|s| - |left|..]
    requires forall k :: 0 <= k < |s| - |left| ==> IsSpace(s[k])
    requires |r| <= |left| && r == left[..|r|]
    requires forall k :: |r| <= k < |left| ==> IsSpace(left[k])
    ensures exists i, j :: 0 <= i <= j <= |s| && r == s[i..j]
              && (forall k :: 0 <= k < i ==> IsSpace(s[k]))
              && (forall k :: j <= k < |s| ==> IsSpace(s[k]))
  {
    var i := |s| - |left|;
    var j := i + |r|;
    assert r == s[i..j];
    forall k | j <= k < |s| ensures IsSpace(s[k]) {
      assert s[k] == left[k - i];
    }
  }

  /** Stripping twice strips nothing more. */
  lemma StripIdempotent(s: string)
    ensures Strip(Strip(s)) == Strip(s)
  {
  }

  /** `s.upper()` on ASCII letters. */
  function Upper(s: string): (r: string)
    ensures |r| == |s|
    ensures forall i :: 0 <= i < |s| ==> r[i] == if 'a' <= s[i] <= 'z' then (s[i] as int - 32) as char else s[i]
  {
    seq(|s|, i requires 0 <= i < |s| => if 'a' <= s[i] <= 'z' then (s[i] as int - 32) as char else s[i])
  }

  /** `bool(int(x))`: `None` where `int` raises (NaN, an infinity), else whether the
      truncated value is non-zero, i.e. whether |x| >= 1. */
  function IntTruth(x: Float): (r: Option<bool>)
    ensures r.None? <==> !x.Num?
    ensures x.Num? ==> r == Some(x.value <= -1.0 || x.value >= 1.0)
  {
    match Int(x)
    case Some(n) => Some(n != 0)
    case None => None
  }

  /** `parse_label`. */
  function ParseLabel(val: Value, parseFloat: string -> Option<Float>): (r: Option<bool>)
    ensures val.PyStr? && Upper(Strip(val.s)) == "CANDIDATE" ==> r == Some(true)
    ensures val.PyStr? && Upper(Strip(val.s)) == "CONFIRMED" ==> r == Some(false)
    ensures val.PyStr? && Upper(Strip(val.s)) !in {"CANDIDATE", "CONFIRMED"} ==>
              r == match parseFloat(Upper(Strip(val.s)))
                   case None => None
                   case Some(x) => IntTruth(x)
    ensures val.PyInt? ==> r == Some(val.i != 0)
    ensures val.PyBool? ==> r == Some(val.b)
    ensures val.PyFloat? ==> (r.Some? <==> val.f.Num?)
    ensures val.PyFloat? && val.f.Num? ==> r == Some(val.f.value <= -1.0 || val.f.value >= 1.0)
    ensures val.PyNone? || val.PyDict? || val.PyOther? ==> r.None?
  {
    match val
    case PyNone => None
    case PyStr(s) =>
      var v := Upper(Strip(s));
      if v == "CANDIDATE" then Some(true)
      else if v == "CONFIRMED" then Some(false)
      else
        (match parseFloat(v)
         case None => None
         case Some(x) => IntTruth(x))
    case PyInt(i) => Some(i != 0)
    case PyBool(b) => Some(b)
    case PyFloat(f) => IntTruth(f)
    case _ => None
  }

  /** A string with no whitespace at either end is its own strip. */
  lemma StripUnpadded(s: string)
    requires s == [] || (!IsSpace(s[0]) && !IsSpace(s[|s| - 1]))
    ensures Strip(s) == s
  {
  }

  lemma StripLeftPadded()
    ensures StripLeft(" candidate\n") == "candidate\n"
  {
    var s := " candidate\n";
    assert IsSpace(s[0]) && s[1..] == "candidate\n";
    StripLeftUnpadded();
  }

  lemma StripLeftUnpadded()
    ensures StripLeft("candidate\n") == "candidate\n"
  {
    assert !IsSpace("candidate\n"[0]);
  }

  lemma StripRightPadded()
    ensures StripRight("candidate\n") == "candidate"
  {
    var t := "candidate\n";
    assert IsSpace(t[9]) && t[..9] == "candidate";
    assert StripRight("candidate") == "candidate";
  }

  lemma StripPadded()
    ensures Strip(" candidate\n") == "candidate"
  {
    StripLeftPadded();
    StripRightPadded();
  }

  lemma UpperCandidate()
    ensures Upper("candidate") == "CANDIDATE"
  {
  }

  /** Case and surrounding whitespace do not matter: " candidate\n" is a candidate. */
  lemma PaddedCandidate(parseFloat: string -> Option<Float>)
    ensures ParseLabel(PyStr(" candidate\n"), parseFloat) == Some(true)
  {
    StripPadded();
    UpperCandidate();
  }

  lemma UpperConfirmed()
    ensures Upper(Strip("Confirmed")) == "CONFIRMED"
  {
    StripUnpadded("Confirmed");
    UpperConfirmedText();
  }

  lemma UpperConfirmedText()
    ensures Upper("Confirmed") == "CONFIRMED"
  {
  }

  /** "Confirmed" in any case is not a candidate. */
  lemma MixedCaseConfirmed(parseFloat: string -> Option<Float>)
    ensures ParseLabel(PyStr("Confirmed"), parseFloat) == Some(false)
  {
    UpperConfirmed();
    assert "CONFIRMED"[1] != "CANDIDATE"[1];
  }

  /** A numeric string reads as its integer part: "0.5" is not a candidate when `float`
      reads it as 0.5. */
  lemma NumericHalf(parseFloat: string -> Option<Float>)
    requires parseFloat("0.5") == Some(Num(0.5))
    ensures ParseLabel(PyStr("0.5"), parseFloat) == Some(false)
  {
    UpperHalf();
    assert "0.5"[0] != "CANDIDATE"[0] && "0.5"[0] != "CONFIRMED"[0];
  }

  lemma UpperHalf()
    ensures Upper(Strip("0.5")) == "0.5"
  {
    StripUnpadded("0.5");
    UpperHalfText();
  }

  lemma UpperHalfText()
    ensures Upper("0.5") == "0.5"
  {
  }

  /** ... and "2" is one when `float` reads it as 2. */
  lemma NumericTwo(parseFloat: string -> Option<Float>)
    requires parseFloat("2") == Some(Num(2.0))
    ensures ParseLabel(PyStr("2"), parseFloat) == Some(true)
  {
    UpperTwo();
    assert "2"[0] != "CANDIDATE"[0] && "2"[0] != "CONFIRMED"[0];
  }

  lemma UpperTwo()
    ensures Upper(Strip("2")) == "2"
  {
    StripUnpadded("2");
    UpperTwoText();
  }

  lemma UpperTwoText()
    ensures Upper("2") == "2"
  {
  }
}
