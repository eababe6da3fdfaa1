/**
 * validate_single_string_arg and validate_list_of_strings: trim string
 * arguments and reject everything that is not a non-blank string.
 */
module Validators {
  import opened Common
  import opened PyStrings

  function NotStringMsg(name: string): string { name + " should be a string" }
  function EmptyStringMsg(name: string): string { name + " should not be an empty string" }

  /** A string argument that survives validation: a str that is not blank. */
  predicate ValidString(v: PyValue) {
    v.PyStr? && Strip(v.s) != ""
  }

  /**
   * validate_single_string_arg: the trimmed string, a TypeError for a
   * non-string and a ValueError for a string that is blank.
   */
  function ValidateSingleStringArg(value: PyValue, name: string): (r: Result<string>)
    ensures r.Ok? <==> ValidString(value)
    ensures r.Ok? ==> r.value != "" && Trimmed(r.value) && |r.value| <= |value.s|
    ensures r.Ok? ==> r.value == Strip(value.s)
    ensures !value.PyStr? ==> r == Err(TypeError(NotStringMsg(name)))
    ensures value.PyStr? && !ValidString(value) ==> r == Err(ValueError(EmptyStringMsg(name)))
  {
    if !value.PyStr? then Err(TypeError(NotStringMsg(name)))
    else
      var v := Strip(value.s);
      if |v| == 0 then Err(ValueError(EmptyStringMsg(name))) else Ok(v)
  }

  /** The position of the first element that fails validation, |xs| if none does. */
  function FirstInvalid(xs: seq<PyValue>): (k: nat)
    ensures k <= |xs|
    ensures forall j :: 0 <= j < k ==> ValidString(xs[j])
    ensures k < |xs| ==> !ValidString(xs[k])
  {
    if xs == [] || !ValidString(xs[0]) then 0
    else
      var k := FirstInvalid(xs[1..]);
      assert forall j :: 1 <= j < |xs| ==> xs[j] == xs[1..][j - 1];
      1 + k
  }

  /**
   * The list comprehension of validate_list_of_strings: validates the elements
   * left to right and stops at the first one that fails.
   */
  function ValidateEach(xs: seq<PyValue>, name: string): (r: Result<seq<string>>)
    ensures r.Ok? ==> |r.value| == |xs|
    ensures r.Ok? ==> forall k :: 0 <= k < |xs| ==> ValidString(xs[k]) && r.value[k] == Strip(xs[k].s)
  {
    if xs == [] then Ok([])
    else if !ValidString(xs[0]) then Err(ValidateSingleStringArg(xs[0], name).error)
    else
      var tail := ValidateEach(xs[1..], name);
      if tail.Err? then Err(tail.error)
      else
        var vs := [Strip(xs[0].s)] + tail.value;
        assert forall j :: 0 <= j < |xs| - 1 ==> vs[j + 1] == tail.value[j] && xs[j + 1] == xs[1..][j];
        Ok(vs)
  }

  /**
   * The comprehension succeeds exactly when every element is a non-blank
   * string; otherwise it fails with the error of the first element that is not.
   */
  lemma {:induction false} ValidateEachOutcome(xs: seq<PyValue>, name: string)
    ensures ValidateEach(xs, name).Ok? <==> FirstInvalid(xs) == |xs|
    ensures ValidateEach(xs, name).Err? ==>
              FirstInvalid(xs) < |xs| &&
              ValidateEach(xs, name).error == ValidateSingleStringArg(xs[FirstInvalid(xs)], name).error
  {
    if xs != [] && ValidString(xs[0]) {
      ValidateEachOutcome(xs[1..], name);
      var k := FirstInvalid(xs[1..]);
      assert FirstInvalid(xs) == 1 + k;
      if k < |xs| - 1 {
        assert xs[1 + k] == xs[1..][k];
      }
    }
  }

  /** Every element of a list or tuple that validates is a non-blank string. */
  lemma ValidatedElementsAreStrings(xs: seq<PyValue>, name: string)
    requires ValidateEach(xs, name).Ok?
    ensures forall k :: 0 <= k < |xs| ==> ValidString(xs[k])
  {
    ValidateEachOutcome(xs, name);
  }

  const TypeMsgSuffix := " should be a string or list / tuple of strings"

  /**
   * validate_list_of_strings: a single string becomes a one-element list, a
   * list or tuple is validated element by element, anything else is a
   * TypeError.
   */
  function ValidateListOfStrings(value: PyValue, name: string): (r: Result<seq<string>>)
    ensures value.PyStr? ==> r.Ok? == ValidString(value)
    ensures value.PyStr? && r.Ok? ==> r.value == [Strip(value.s)]
    ensures !value.PyStr? && !IsSequence(value) ==> r == Err(TypeError(name + TypeMsgSuffix))
    ensures IsSequence(value) ==> r == ValidateEach(value.items, name)
  {
    if value.PyStr? then
      match ValidateSingleStringArg(value, name)
      case Err(e) => Err(e)
      case Ok(v) => Ok([v])
    else if !IsSequence(value) then Err(TypeError(name + TypeMsgSuffix))
    else ValidateEach(value.items, name)
  }

  /**
   * A bare string is validated exactly as the one-element list holding it,
   * and as the one-element tuple.
   */
  lemma StringIsSingletonList(s: string, name: string)
    ensures ValidateListOfStrings(PyStr(s), name) == ValidateListOfStrings(PyList([PyStr(s)]), name)
    ensures ValidateListOfStrings(PyStr(s), name) == ValidateListOfStrings(PyTuple([PyStr(s)]), name)
    ensures Strip(s) != "" ==> ValidateListOfStrings(PyStr(s), name) == Ok([Strip(s)])
  {
    var one := [PyStr(s)];
    assert one[1..] == [];
    assert ValidateEach(one[1..], name) == Ok([]);
    if Strip(s) != "" {
      assert ValidString(one[0]);
      assert [Strip(s)] + [] == [Strip(s)];
      assert ValidateEach(one, name) == Ok([Strip(s)]);
    } else {
      assert ValidateEach(one, name) == Err(ValueError(EmptyStringMsg(name)));
    }
  }

  /** A list and a tuple with the same elements validate alike. */
  lemma ListAndTupleAgree(xs: seq<PyValue>, name: string)
    ensures ValidateListOfStrings(PyList(xs), name) == ValidateListOfStrings(PyTuple(xs), name)
  {
  }

  /** Validating a validated list again changes nothing. */
  lemma ValidateEachIdempotent(xs: seq<PyValue>, name: string)
    requires ValidateEach(xs, name).Ok?
    ensures var ys := ValidateEach(xs, name).value;
            ValidateEach(StrValues(ys), name) == Ok(ys)
  {
    var ys := ValidateEach(xs, name).value;
    var vs := StrValues(ys);
    forall k | 0 <= k < |ys| ensures ValidString(vs[k]) && Strip(vs[k].s) == ys[k] {
      StripIdempotent(xs[k].s);
    }
    ValidateEachOutcome(vs, name);
    var r := ValidateEach(vs, name);
    assert r.value == ys;
  }

  /** The strings as Python str values. */
  function StrValues(ss: seq<string>): (vs: seq<PyValue>)
    ensures |vs| == |ss|
    ensures forall k :: 0 <= k < |ss| ==> vs[k] == PyStr(ss[k])
  {
    if ss == [] then [] else [PyStr(ss[0])] + StrValues(ss[1..])
  }
}
