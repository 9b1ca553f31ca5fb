/** The product catalog both pages fetch with `GET /produto`.
    Prices are integer cents; stock is a unit count. */
module Catalog {
  import opened Wrappers
  import opened Seqs

  /** One catalog record: `idProduto`, `nome`, `precoVenda` (cents), `quantidadeEstoque`. */
  datatype Product = Product(id: int, name: string, salePrice: int, stock: int)

  /** The first catalog product with id `id`, as the pages look it up with `find`. */
  function ProductById(catalog: seq<Product>, id: int): Option<Product> {
    Find(catalog, (p: Product) => p.id == id)
  }

  /** The first catalog product named exactly `name`. */
  function ProductByName(catalog: seq<Product>, name: string): Option<Product> {
    Find(catalog, (p: Product) => p.name == name)
  }
}
