/** Small value types shared by every module of the model. */
module Common {

  /** An optional value: `null` in the application's TypeScript. */
  datatype Option<+T> = None | Some(value: T)

  /** The outcome of an operation that may throw. */
  datatype Result<+T, +E> = Success(value: T) | Failure(error: E)

  /** A JavaScript value of type `string | null | undefined`. */
  datatype JsString = Undefined | Null | Str(s: string)

  /** JavaScript truthiness of a `string | null | undefined`: a non-empty string. */
  predicate Truthy(v: JsString)
  {
    v.Str? && v.s != ""
  }

  /** JavaScript truthiness of a `string | null`. */
  predicate Present(a: Option<string>)
  {
    a.Some? && a.value != ""
  }

  /** Extending a prefix by one element (generic, so element equality is never unfolded). */
  lemma TakeSnoc<T>(s: seq<T>, i: nat)
    requires i < |s|
    ensures s[..i + 1][..i] == s[..i] && s[..i + 1][i] == s[i]
  {
  }

  lemma TakeAll<T>(s: seq<T>)
    ensures s[..|s|] == s
  {
  }

  lemma ConcatAssoc<T>(a: seq<T>, b: seq<T>, c: seq<T>)
    ensures (a + b) + c == a + (b + c)
  {
  }

  lemma ConsParts<T>(x: T, r: seq<T>)
    ensures ([x] + r)[0] == x && ([x] + r)[1..] == r
  {
  }

  lemma HeadTail<T>(r: seq<T>)
    requires |r| >= 1
    ensures r == [r[0]] + r[1..]
  {
  }

  lemma ThreeSlices<T>(s: seq<T>, i: nat, j: nat)
    requires i <= j <= |s|
    ensures s == s[..i] + s[i..j] + s[j..]
  {
  }
}
