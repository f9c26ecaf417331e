/** The frames the server and the clients build. A frame is a one-letter
    tag, often a decimal index, ':'-separated fields and an opaque packed
    payload. The race-mark and race-event frames are built in `SailMark`. */
module Frames {
  import opened Wire

  /** Client hello: 'B<name>'. */
  function HelloFrame(name: string): string {
    "B" + name
  }

  /** Client pose update: 'U<idx>:<payload>'. */
  function UpdateFrame(idx: int, payload: string): string {
    "U" + Decimal(idx) + ":" + payload
  }

  /** Server welcome: 'W<index>:<payload>', the payload being the packed
      start position and heading. */
  function WelcomeFrame(index: int, payload: string): string {
    "W" + Decimal(index) + ":" + payload
  }

  /** Server birth notice: 'B<index>:<name>', also the registry's value for a
      connection. */
  function BirthFrame(index: int, name: string): string {
    "B" + Decimal(index) + ":" + name
  }

  /** Server death notice: 'D<index>'. */
  function DeathFrame(index: int): string {
    "D" + Decimal(index)
  }

  /** The frame the client's close actually sends: the literal text
      'D{self.idx}', since the format string lacks its f prefix. */
  function CloseFrameAsWritten(idx: int): string {
    "D{self.idx}"
  }

  /** The close frame the protocol calls for: the client's own death notice. */
  function CloseFrame(idx: int): string {
    DeathFrame(idx)
  }

  /** Static object: 'L<name>:<payload>'. */
  function ObjectFrame(name: string, payload: string): string {
    "L" + name + ":" + payload
  }

  /** Obstruction geometry: 'O<name>:<geom>:<payload>'. */
  function ObstructionFrame(name: string, geom: string, payload: string): string {
    "O" + name + ":" + geom + ":" + payload
  }

  /** Wind: 'E<payload>'. */
  function WindFrame(payload: string): string {
    "E" + payload
  }
}
