/** The one keystore shape the dispatch layer forwards: the xpub serialisation format. */
module Keystore {

  /** `xpub_type_t`: which version bytes an extended public key is serialised with. */
  datatype XpubType =
    | Xpub
    | Ypub
    | Zpub
    | Tpub
    | Vpub
    | Upub
    | CapitalVpub
    | CapitalZpub
    | CapitalUpub
    | CapitalYpub
}
