/** The networks a federation can live on (src/network.rs). */
module Networks {

  datatype BitcoinNetwork = Mainnet | Testnet | Testnet4 | Signet | Regtest

  datatype ElementsNetwork = Liquid | LiquidTestnet | ElementsRegtest

  datatype NetworkType =
    | Bitcoin(bitcoin: BitcoinNetwork)
    | Elements(elements: ElementsNetwork)
}
