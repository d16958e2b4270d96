/** Values shared by every part of the model: optional values, the `app_role`
    enumeration, toast notifications, the character classes of the password
    rules, and an order-preserving filter over sequences. */
module Common {

  datatype Option<T> = None | Some(value: T)

  /** The values of the database enumeration `app_role`. */
  datatype Role = Superuser | Admin | User | Supervisor

  /** A toast notification raised by a page or a dialog. */
  datatype Toast = Toast(destructive: bool, title: string, description: string)

  /** JavaScript falsiness of an optional string field: absent or the empty string. */
  predicate Falsy(s: Option<string>) {
    s == None || s == Some("")
  }

  /** A value thrown inside an edge function's `try` block: an `Error`
      instance with its `message`, or any other value, such as the plain
      `{ message, details, code }` object a query reports as its `error`. */
  datatype Thrown = ErrorInstance(message: string) | NotAnError

  const UnknownError := "Unknown error"

  /** The message the edge functions' `catch` block reports with status 500:
      an `Error`'s own message, otherwise "Unknown error". */
  function CatchMessage(t: Thrown): string {
    match t
    case ErrorInstance(m) => m
    case NotAnError => UnknownError
  }

  /** JavaScript's `length` of a string: the number of UTF-16 code units, in
      which a character outside the Basic Multilingual Plane (a surrogate
      pair) counts twice. */
  function JsLength(s: string): (n: nat)
    ensures |s| <= n <= 2 * |s|
    decreases |s|
  {
    if s == [] then 0
    else (if s[0] as int < 0x1_0000 then 1 else 2) + JsLength(s[1..])
  }

  /** Inside the Basic Multilingual Plane JavaScript's length is the number
      of characters; outside it, twice that. */
  lemma {:induction false} JsLengthOfPlanes(s: string)
    ensures (forall i | 0 <= i < |s| :: s[i] as int < 0x1_0000) ==> JsLength(s) == |s|
    ensures (forall i | 0 <= i < |s| :: s[i] as int >= 0x1_0000) ==> JsLength(s) == 2 * |s|
    decreases |s|
  {
    if s != [] {
      JsLengthOfPlanes(s[1..]);
      assert forall i | 0 <= i < |s[1..]| :: s[1..][i] == s[i + 1];
    }
  }

  /** Messages shared by the sign-up policy and the pages' own checks. */
  const TooShort := "Password must be at least 8 characters"
  const Mismatch := "Passwords do not match"

  /** The characters matched by the regular expression `\d`. */
  predicate IsDigit(c: char) {
    '0' <= c <= '9'
  }

  /** The characters matched by the regular expression `[!@#$%^&*]`. */
  predicate IsSpecial(c: char) {
    c in "!@#$%^&*"
  }

  predicate HasDigit(s: string) {
    exists i | 0 <= i < |s| :: IsDigit(s[i])
  }

  predicate HasSpecial(s: string) {
    exists i | 0 <= i < |s| :: IsSpecial(s[i])
  }

  /** The elements of `s` that satisfy `keep`, in their original order
      (JavaScript's `Array.prototype.filter`, or a store query's `.eq` filter). */
  function Filter<T>(s: seq<T>, keep: T -> bool): (r: seq<T>)
    ensures |r| <= |s|
    ensures forall x :: x in r ==> x in s && keep(x)
    ensures forall x :: x in s && keep(x) ==> x in r
    ensures (forall x :: x in s ==> keep(x)) ==> r == s
    decreases |s|
  {
    if s == [] then []
    else (if keep(s[0]) then [s[0]] else []) + Filter(s[1..], keep)
  }

  /** `a` is obtained from `b` by deleting elements, keeping the order of the rest. */
  ghost predicate IsSubsequence<T>(a: seq<T>, b: seq<T>)
    decreases |b|
  {
    if a == [] then true
    else if b == [] then false
    else (a[0] == b[0] && IsSubsequence(a[1..], b[1..])) || IsSubsequence(a, b[1..])
  }

  lemma {:induction false} SubsequenceReflexive<T>(s: seq<T>)
    ensures IsSubsequence(s, s)
    decreases |s|
  {
    if s != [] {
      SubsequenceReflexive(s[1..]);
    }
  }

  lemma {:induction false} FilterIsSubsequence<T>(s: seq<T>, keep: T -> bool)
    ensures IsSubsequence(Filter(s, keep), s)
    decreases |s|
  {
    if s != [] {
      FilterIsSubsequence(s[1..], keep);
      var rest := Filter(s[1..], keep);
      if keep(s[0]) {
        assert Filter(s, keep) == [s[0]] + rest;
        assert ([s[0]] + rest)[1..] == rest;
      } else {
        assert Filter(s, keep) == rest;
        if rest != [] {
          assert IsSubsequence(rest, s[1..]);
        }
      }
    }
  }
}
