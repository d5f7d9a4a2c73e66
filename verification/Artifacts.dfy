/**
  What the files of a run hold.  gzip and gpg are free constructors, so decompression and
  decryption with the right passphrase invert them and nothing else is assumed about them.
*/
module Artifacts {
  import opened Wrappers
  import opened Sed

  datatype Content =
    | Raw(lines: seq<Line>)
    | Gzip(of: Content)
    | Enc(key: string, of: Content)
    | Junk(n: nat)

  function Gunzip(c: Content): Option<Content> {
    match c
    case Gzip(x) => Some(x)
    case _ => None
  }

  function Decrypt(key: string, c: Content): Option<Content> {
    match c
    case Enc(k, x) => if k == key then Some(x) else None
    case _ => None
  }
}
