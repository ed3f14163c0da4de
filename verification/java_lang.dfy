/**
 The small part of java.lang the plugin leans on: String.endsWith,
 String.indexOf and String.substring (with the exception it raises), and the
 way a Java call either returns a possibly-null reference or throws.
 Java strings are modelled as sequences of chars.
 */
module JavaLang {

  /** A Java reference that may be null. */
  datatype Nullable<+T> = Null | NonNull(get: T)

  /** The exceptions the modelled code can raise or catch. */
  datatype JavaException =
    | StringIndexOutOfBounds
    | FileNotFound

  /** The outcome of a Java call: a returned value or a thrown exception. */
  datatype Outcome<+T> = Returns(value: T) | Throws(exception: JavaException)

  /** `s.endsWith(suffix)`. */
  predicate EndsWith(s: string, suffix: string) {
    |suffix| <= |s| && s[|s| - |suffix|..] == suffix
  }

  /**
   A string ends with `suffix` when it is the rest of it followed by
   `suffix`, and any string `p` followed by `suffix` ends with it.
   */
  lemma EndsWithShape(s: string, p: string, suffix: string)
    ensures EndsWith(s, suffix) ==> s == s[..|s| - |suffix|] + suffix
    ensures EndsWith(p + suffix, suffix)
  {
    assert (p + suffix)[|p|..] == suffix;
    if EndsWith(s, suffix) {
      assert s == s[..|s| - |suffix|] + s[|s| - |suffix|..];
    }
  }

  /** `s.indexOf(c)`: the position of the first `c` in `s`, or -1 when there is none. */
  function IndexOf(s: string, c: char): (r: int)
    ensures -1 <= r < |s|
    ensures r == -1 <==> c !in s
    ensures 0 <= r ==> s[r] == c && c !in s[..r]
  {
    if |s| == 0 then -1
    else if s[0] == c then 0
    else
      var k := IndexOf(s[1..], c);
      if k == -1 then -1 else k + 1
  }

  /**
   `s.substring(begin, end)`: the characters from `begin` up to, not including,
   `end`; out-of-range indexes throw. The result is never a null reference.
   */
  function Substring(s: string, begin: int, end: int): (r: Outcome<Nullable<string>>)
    ensures r.Returns? <==> 0 <= begin <= end <= |s|
    ensures r.Throws? ==> r.exception == StringIndexOutOfBounds
    ensures r.Returns? ==> r.value.NonNull? && |r.value.get| == end - begin
    ensures r.Returns? ==> forall i :: 0 <= i < end - begin ==> r.value.get[i] == s[begin + i]
  {
    if 0 <= begin <= end <= |s| then Returns(NonNull(s[begin..end]))
    else Throws(StringIndexOutOfBounds)
  }
}
