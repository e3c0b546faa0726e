/**
 C strings as character sequences: a C string never holds the NUL byte,
 because `strlen`, `strdup` and `strcmp` all stop at the first one.
 */
module CStrings {

  const NUL: char := '\0'

  type CString = s: string | NUL !in s witness ""

  /** The pieces joined in order, as the copying loop of an N-ary strcat lays them out. */
  function Concat(pieces: seq<CString>): CString
  {
    if pieces == [] then "" else pieces[0] + Concat(pieces[1..])
  }

  /**
   What `strdup` or `strlen` sees in a NUL-terminated buffer: the characters
   before the first NUL.
   */
  function UpToNul(data: seq<char>): (s: CString)
    requires NUL in data
    ensures |s| < |data| && data[..|s|] == s && data[|s|] == NUL
  {
    if data[0] == NUL then "" else [data[0]] + UpToNul(data[1..])
  }

  /** A buffer that holds `s` followed by a terminator reads back as exactly `s`. */
  lemma UpToNulOfTerminated(data: seq<char>, s: CString)
    requires |s| < |data| && data[..|s|] == s && data[|s|] == NUL
    ensures UpToNul(data) == s
  {
  }
}
