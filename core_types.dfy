/** Machine types shared by the IoTVP modules. */
module CoreTypes {

  /** C `uint8_t`: a byte, a cursor offset or a command vector. */
  type uint8 = x: int | 0 <= x < 0x100

  /** C `uint16_t`: a port number. */
  type uint16 = x: int | 0 <= x < 0x1_0000

  /** A value that a foreign call may fail to produce (a NULL pointer). */
  datatype Option<T> = None | Some(value: T)
}
