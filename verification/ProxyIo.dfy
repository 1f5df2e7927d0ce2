/** The byte stream a proxy negotiation runs on. */
module ProxyIo {
  import opened Common

  datatype Auth = Auth(user: bytes, pass: bytes)

  /** `input` is what the other side has sent or will send and that has not been
      read; `output` is what has been written. */
  class Duplex {
    var input: bytes
    var output: bytes

    method WriteAll(b: bytes)
      modifies this`output
      ensures output == old(output) + b
    {
      output := output + b;
    }

    /** All `n` bytes, or a failure that uses up whatever there was. */
    method ReadExact(n: nat) returns (r: Option<bytes>)
      modifies this`input
      ensures r.Some? <==> n <= |old(input)|
      ensures r.Some? ==> r.value == old(input)[..n] && input == old(input)[n..]
    {
      if |input| < n {
        input := [];
        return None;
      }
      r := Some(input[..n]);
      input := input[n..];
    }
  }
}
