/** Agents and the wallets they are known by on the chain. */
module Identity {

  type AgentId = nat

  /** Wallets. Lower-cased fixed-width hexadecimal addresses compare like the numbers
      they denote, so a wallet is its number; 0 is the zero address. */
  type Address = nat

  /** The agents table: each agent's wallet, no two alike and none zero. */
  ghost predicate Directory(dir: map<AgentId, Address>) {
    && (forall a, b :: a in dir && b in dir && dir[a] == dir[b] ==> a == b)
    && (forall a :: a in dir ==> dir[a] != 0)
  }
}
