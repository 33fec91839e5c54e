/** Owner-checked cross-core double buffers for large real-time values. */
module TableBuffer {
  import opened Wrappers
  import opened Commands

  datatype BufferError = Busy

  /** Everything both endpoints of one buffer share, and the active endpoint's cached bank. */
  datatype Buf<T> = Buf(banks: seq<T>, active: nat, pending: nat, current: nat)
  {
    predicate Ok() { |banks| == 2 && active < 2 && pending <= 2 && current < 2 }

    /** What the real-time loop reads. */
    function Get(): T
      requires Ok()
    {
      banks[current]
    }
  }

  const NO_PENDING: nat := 0

  /** Staging endpoint: the bank it may write, while no commit is outstanding. */
  function Borrowed<T>(b: Buf<T>): Result<nat, BufferError>
    requires b.Ok()
  {
    if b.pending != NO_PENDING then Err(BufferError.Busy) else Ok(1 - b.active)
  }

  function Committed<T>(b: Buf<T>, owner: nat): (Buf<T>, Result<CommitToken, BufferError>)
    requires b.Ok()
  {
    if b.pending != NO_PENDING then (b, Err(BufferError.Busy))
    else (b.(pending := 1 - b.active + 1), Ok(CommitToken(owner, 1 - b.active)))
  }

  function Cancelled<T>(b: Buf<T>, owner: nat, token: CommitToken): Buf<T> {
    if token.owner == owner then b.(pending := NO_PENDING) else b
  }

  /** Active endpoint: foreign and stale tokens are ignored. */
  function Activated<T>(b: Buf<T>, owner: nat, token: CommitToken): (r: Buf<T>)
    ensures b.Ok() ==> r.Ok()
  {
    if token.owner != owner || b.pending == NO_PENDING || b.pending - 1 != token.bank then b
    else b.(current := token.bank, active := token.bank, pending := NO_PENDING)
  }

  class DoubleBuffer<T(0)> {
    const identity: nat
    const banks: array<T>
    var active: nat
    var pending: nat
    var current: nat

    function Model(): Buf<T>
      reads this, banks
    {
      Buf(banks[..], active, pending, current)
    }

    ghost predicate Valid() reads this, banks { Model().Ok() }

    constructor FromBanks(identity: nat, first: T, second: T)
      ensures Valid() && this.identity == identity && fresh(banks)
      ensures Model() == Buf([first, second], 0, NO_PENDING, 0)
    {
      this.identity := identity;
      banks := new T[2](i => if i == 0 then first else second);
      active, pending, current := 0, NO_PENDING, 0;
    }

    method Borrow() returns (bank: Result<nat, BufferError>)
      requires Valid()
      ensures bank == Borrowed(Model())
    {
      if pending != NO_PENDING {
        return Err(BufferError.Busy);
      }
      bank := Ok(1 - active);
    }

    method Commit() returns (token: Result<CommitToken, BufferError>)
      requires Valid()
      modifies this`pending
      ensures Valid() && (Model(), token) == Committed(old(Model()), identity)
    {
      if pending != NO_PENDING {
        return Err(BufferError.Busy);
      }
      var bank := 1 - active;
      pending := bank + 1;
      token := Ok(CommitToken(identity, bank));
    }

    method Cancel(token: CommitToken)
      requires Valid()
      modifies this`pending
      ensures Valid() && Model() == Cancelled(old(Model()), identity, token)
    {
      if token.owner == identity {
        pending := NO_PENDING;
      }
    }

    method Get() returns (value: T)
      requires Valid()
      ensures value == Model().Get()
    {
      value := banks[current];
    }

    method Activate(token: CommitToken)
      requires Valid()
      modifies this`current, this`active, this`pending
      ensures Valid() && Model() == Activated(old(Model()), identity, token)
    {
      if token.owner != identity {
        return;
      }
      if pending == NO_PENDING || pending - 1 != token.bank {
        return;
      }
      current := pending - 1;
      active := current;
      pending := NO_PENDING;
    }
  }

  /** Publishing a staged value and activating its token makes exactly it the active value,
      leaves the buffer idle, and lets the cycle start again on the other bank. */
  lemma CommitThenActivate<T>(b: Buf<T>, owner: nat, value: T)
    requires b.Ok() && b.pending == NO_PENDING && b.active == b.current
    ensures
      var staged := b.(banks := b.banks[1 - b.active := value]);
      var (committed, token) := Committed(staged, owner);
      && token.Ok?
      && committed.Get() == b.Get() && Borrowed(committed).Err? && Committed(committed, owner).1.Err?
      && var done := Activated(committed, owner, token.value);
         && done.Ok() && done.Get() == value && done.pending == NO_PENDING
         && done.active == done.current && Borrowed(done) == Ok(b.active)
  {}

  /** A token that comes back unused restores the buffer without the active value moving;
      a foreign token neither restores nor activates anything. */
  lemma CancelRestores<T>(b: Buf<T>, owner: nat, foreign: CommitToken)
    requires b.Ok() && b.pending == NO_PENDING && foreign.owner != owner
    ensures
      var (committed, token) := Committed(b, owner);
      && token.Ok?
      && Cancelled(committed, owner, token.value) == b
      && Cancelled(committed, owner, foreign) == committed
      && Activated(committed, owner, foreign) == committed
  {}
}
