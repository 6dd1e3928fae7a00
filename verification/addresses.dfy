/**
 Tezos account identifiers as the substitutor sees them.

 An address is kept in its Base58Check text form. The text form is an
 injective encoding of the (kind, hash) pair that tzgo's `tezos.Address`
 stores, so comparing texts is comparing addresses, and an address is an
 originated (smart-contract) account exactly when its text starts with
 `KT1`: the kind is read structurally off the identifier, never looked up.
 */
module Addresses {

  type Address = string

  /** Prefix of the text form of every originated account. */
  const ContractPrefix: string := "KT1"

  /** `tezos.Address.IsContract`. */
  predicate IsContract(a: Address) {
    ContractPrefix <= a
  }
}
