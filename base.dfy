/** Primitive values the updater works with: fixed-width integers, the
    standard library's IP and socket addresses, and the Option/Result
    wrappers that stand for Rust's own. */
module Base {

  /** Rust's `u16`, `u32` and `usize` (a 64-bit target is assumed). */
  newtype u16 = x: int | 0 <= x < 0x1_0000
  newtype u32 = x: int | 0 <= x < 0x1_0000_0000
  newtype usize = x: int | 0 <= x < 0x1_0000_0000_0000_0000

  const USIZE_LIMIT: int := 0x1_0000_0000_0000_0000

  datatype Option<T> = None | Some(value: T) {
    /** Rust's `unwrap_or`. */
    function GetOr(default: T): T {
      match this
      case Some(v) => v
      case None => default
    }
  }

  /** An operation that either yields a value or fails with a message. */
  datatype Result<T> = Ok(value: T) | Err(error: string)

  /** `std::net::IpAddr`: only its identity matters to the model. */
  datatype IpAddr = V4(a: bv8, b: bv8, c: bv8, d: bv8) | V6(bits: bv128)

  /** `std::net::SocketAddr`, as returned by the STUN lookup. */
  datatype SocketAddr = SocketAddr(addr: IpAddr, port: u16) {
    function Ip(): IpAddr { addr }
  }
}
