/** Values shared by every part of the model: optional values, the outcome of an
    awaited operation, and the JavaScript value a failing operation throws. */
module Base {

  /** An optional value; `None` stands for JavaScript's `undefined`. */
  datatype Option<+T> = None | Some(value: T) {

    /** The value, or `default` when it is `undefined` (a destructuring default). */
    function GetOr(default: T): T {
      match this
      case Some(v) => v
      case None => default
    }
  }

  /** A value or an error. */
  datatype Result<+T, +E> = Ok(value: T) | Err(error: E)

  /** A value thrown by JavaScript code: an `Error` object (with its `name` and
      `message` properties) or any other value, kept as its `String(...)` text. */
  datatype Thrown = ErrorObject(name: string, message: string) | OtherValue(text: string) {

    /** `String(error)`, which a template literal `${error}` produces:
        `Error.prototype.toString` for error objects. */
    function Render(): (r: string)
      ensures this.ErrorObject? ==>
        |this.message| <= |r| && r[|r| - |this.message|..] == this.message
      ensures this.ErrorObject? && this.name != "" ==> this.name <= r
      ensures this.OtherValue? ==> r == this.text
    {
      match this
      case ErrorObject(name, message) =>
        if name == "" then message
        else if message == "" then name
        else name + ": " + message
      case OtherValue(text) => text
    }

    /** `error instanceof Error ? error.message : fallback`. */
    function MessageOr(fallback: string): (r: string)
      ensures this.ErrorObject? ==> r == this.message
      ensures this.OtherValue? ==> r == fallback
    {
      match this
      case ErrorObject(_, message) => message
      case OtherValue(_) => fallback
    }
  }

  /** How an awaited external operation settles: resolved with a value, or rejected. */
  type Outcome<+T> = Result<T, Thrown>
}

/** String helpers with the meaning JavaScript gives them. */
module Text {

  /** `s.includes(t)`, computed by trying every start position from the left. */
  predicate Contains(s: string, t: string)
    decreases |s|
  {
    t <= s || (|s| > 0 && Contains(s[1..], t))
  }

  /** `t` occurs in `s` starting at index `i`. */
  ghost predicate OccursAt(s: string, t: string, i: int) {
    0 <= i && i + |t| <= |s| && s[i..i + |t|] == t
  }

  /** `Contains` agrees with the positional definition of a substring. */
  lemma {:induction false} ContainsIffOccurs(s: string, t: string)
    ensures Contains(s, t) <==> exists i :: OccursAt(s, t, i)
    decreases |s|
  {
    if t <= s {
      assert OccursAt(s, t, 0);
    }
    if |s| > 0 {
      ContainsIffOccurs(s[1..], t);
      forall i | OccursAt(s[1..], t, i)
        ensures OccursAt(s, t, i + 1)
      {
        assert s[1..][i..i + |t|] == s[i + 1..i + 1 + |t|];
      }
      forall i | OccursAt(s, t, i) && i > 0
        ensures OccursAt(s[1..], t, i - 1)
      {
        assert s[1..][i - 1..i - 1 + |t|] == s[i..i + |t|];
      }
    }
  }

  /** A witness position is enough to show `s.includes(t)`. */
  lemma OccurrenceShowsContains(s: string, t: string, i: int)
    requires OccursAt(s, t, i)
    ensures Contains(s, t)
  {
    ContainsIffOccurs(s, t);
  }
}
