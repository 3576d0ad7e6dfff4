/** Vocabulary shared by all the modules: byte strings and optional values. */
module Common {

  /** One byte of a std::string, written as the character with that code. */
  type Octet = c: char | (c as int) < 256 witness 'a'

  /** A std::string: any sequence of bytes, text or not. */
  type Bytes = seq<Octet>

  datatype Option<+T> = None | Some(value: T)

  ghost predicate NoDup<T>(s: seq<T>) {
    forall i, j :: 0 <= i < j < |s| ==> s[i] != s[j]
  }
}
