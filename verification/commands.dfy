/** Bounded command types exchanged between the firmware cores. */
module Commands {
  import opened Words

  /** Linear proof that one bank activation is outstanding: the buffer that issued it and
      the bank it published. */
  datatype CommitToken = CommitToken(owner: nat, bank: nat)

  datatype Payload = Unit | F32(bits: U32) | Word(value: U32) | Buffer(token: CommitToken)

  datatype RtCommand = RtCommand(domain: nat, id: nat, payload: Payload)

  datatype ErrorCode =
    | BadFrame | UnknownType | BadIndex | BadLength | ReadOnly | BadValue | Busy

  const DOMAIN_RIG: nat := 0
  const DOMAIN_GENERATOR: nat := 1
  const DOMAIN_TABLE: nat := 2
  const DOMAIN_CONTROLLER: nat := 3

  const GENERATOR_SET_INCREMENT: nat := 0
  const GENERATOR_SET_TARGET: nat := 1
  const GENERATOR_SET_FORCING: nat := 2

  const TABLE_ACTIVATE: nat := 0
  const TABLE_SET_INCREMENT: nat := 1
  const TABLE_SET_GAIN: nat := 2
  const TABLE_SET_INTERPOLATION: nat := 3
  const TABLE_SET_MODE: nat := 4
  const TABLE_SET_MULTIPLIER: nat := 5
  const TABLE_SET_PHASE: nat := 6
  const TABLE_TRIGGER: nat := 7

  /** A single-producer queue declared with 32 slots holds one item fewer. */
  const QUEUE_CAPACITY: nat := 31

  const COMMANDS_PER_TICK: nat := 2

  /** The three owner-checked buffers of the standard composition. */
  const TARGET: nat := 0
  const FORCING: nat := 1
  const TABLE: nat := 2
  const BUFFERS: nat := 3

  /** The command address under which a buffer's tokens travel. */
  function Route(k: nat): (nat, nat) {
    if k == TARGET then (DOMAIN_GENERATOR, GENERATOR_SET_TARGET)
    else if k == FORCING then (DOMAIN_GENERATOR, GENERATOR_SET_FORCING)
    else (DOMAIN_TABLE, TABLE_ACTIVATE)
  }

  function TokenCommand(k: nat, token: CommitToken): RtCommand {
    RtCommand(Route(k).0, Route(k).1, Buffer(token))
  }
}
