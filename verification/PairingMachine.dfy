/**
 The acceptor's code check. Only a hash of the code is kept; hashing is taken to be injective,
 which the free constructor `Sha256` says.
 */
module PairingMachines {
  type Code = string

  datatype Hash = Sha256(code: Code)

  predicate VerifyCode(code: Code, hash: Hash) {
    Sha256(code) == hash
  }

  /** `fails` is a `u8`, which wraps in a release build. */
  datatype Machine = Machine(codeHash: Hash, submittedOk: bool, fails: nat)

  function NewMachine(codeHash: Hash): Machine {
    Machine(codeHash, false, 0)
  }

  predicate FailedOut(m: Machine) {
    m.fails >= 3
  }

  function Submitted(m: Machine, code: Code): Machine {
    if VerifyCode(code, m.codeHash) then m.(submittedOk := true) else m.(fails := (m.fails + 1) % 256)
  }

  class PairingMachine {
    const codeHash: Hash
    var submittedOk: bool
    var fails: nat

    ghost function View(): Machine
      reads this
    {
      Machine(codeHash, submittedOk, fails)
    }

    constructor (codeHash: Hash)
      ensures View() == NewMachine(codeHash)
    {
      this.codeHash := codeHash;
      submittedOk, fails := false, 0;
    }

    method SubmitRemote(remoteCode: Code) returns (ok: bool)
      modifies this
      ensures View() == Submitted(old(View()), remoteCode)
      ensures ok == VerifyCode(remoteCode, codeHash)
    {
      if VerifyCode(remoteCode, codeHash) {
        submittedOk := true;
        ok := true;
      } else {
        fails := (fails + 1) % 256;
        ok := false;
      }
    }

    method HasFailedOut() returns (r: bool)
      ensures r == FailedOut(View())
    {
      r := fails >= 3;
    }
  }
}
