/**
 * The products table and the stock ledger over it: keyed lookup, creation,
 * partial update, deletion, the read-only availability check and the
 * credit/debit of a product's stock.
 */
module ProductService {
  import opened Wrappers
  import opened Exceptions

  /**
   * A row of the products table. The schema stores preco as DECIMAL(10,2);
   * here it is a whole number of cents.
   */
  datatype Product = Product(
    id: int,
    nome: string,
    categoria: string,
    descricao: Option<string>,
    preco: int,
    quantidadeEstoque: int)

  datatype CreateProductDto = CreateProductDto(
    nome: string,
    categoria: string,
    descricao: Option<string>,
    preco: int,
    quantidadeEstoque: int)

  /** Every field is optional; a present field overwrites the stored one. */
  datatype UpdateProductDto = UpdateProductDto(
    nome: Option<string>,
    categoria: Option<string>,
    descricao: Option<string>,
    preco: Option<int>,
    quantidadeEstoque: Option<int>)

  /** Rows are keyed by their own id, and every id is below the next one to be assigned. */
  ghost predicate Keyed(rows: map<int, Product>, nextId: int) {
    && 0 < nextId
    && forall id | id in rows :: rows[id].id == id && 0 < id < nextId
  }

  /** The products table, shared by the product and order services. */
  class ProductTable {
    var rows: map<int, Product>
    var nextId: int

    ghost predicate Valid()
      reads this
    {
      Keyed(rows, nextId)
    }

    constructor ()
      ensures Valid() && rows == map[] && nextId == 1
    {
      rows := map[];
      nextId := 1;
    }
  }

  /** findOne: the product with that id, or NotFound. */
  function FindOne(rows: map<int, Product>, id: int): (r: Result<Product, Exception>)
    ensures r.Ok? <==> id in rows
    ensures r.Ok? ==> r.value == rows[id]
    ensures r.Err? ==> r.error == NotFound(ProductNotFound(id))
  {
    if id in rows then Ok(rows[id]) else Err(NotFound(ProductNotFound(id)))
  }

  /**
   * verificarEstoque: succeeds with the stored product exactly when it exists
   * and holds at least the requested quantity. Being a function, it cannot
   * change the table.
   */
  function VerificarEstoque(rows: map<int, Product>, productId: int, quantidade: int): (r: Result<Product, Exception>)
    ensures r.Ok? <==> productId in rows && quantidade <= rows[productId].quantidadeEstoque
    ensures r.Ok? ==> r.value == rows[productId]
    ensures productId !in rows ==> r == Err(NotFound(ProductNotFound(productId)))
    ensures productId in rows && rows[productId].quantidadeEstoque < quantidade ==>
              r == Err(BadRequest(InsufficientStock(rows[productId].nome, rows[productId].quantidadeEstoque)))
  {
    var product :- FindOne(rows, productId);
    if product.quantidadeEstoque < quantidade then
      Err(BadRequest(InsufficientStock(product.nome, product.quantidadeEstoque)))
    else
      Ok(product)
  }

  /** The row after a partial update: fields the dto carries replaced, the rest kept. */
  function Patch(p: Product, dto: UpdateProductDto): (r: Product)
    ensures r.id == p.id
    ensures dto.nome.None? ==> r.nome == p.nome
    ensures dto.categoria.None? ==> r.categoria == p.categoria
    ensures dto.descricao.None? ==> r.descricao == p.descricao
    ensures dto.preco.None? ==> r.preco == p.preco
    ensures dto.quantidadeEstoque.None? ==> r.quantidadeEstoque == p.quantidadeEstoque
    ensures dto.nome.Some? ==> r.nome == dto.nome.value
    ensures dto.categoria.Some? ==> r.categoria == dto.categoria.value
    ensures dto.descricao.Some? ==> r.descricao == dto.descricao
    ensures dto.preco.Some? ==> r.preco == dto.preco.value
    ensures dto.quantidadeEstoque.Some? ==> r.quantidadeEstoque == dto.quantidadeEstoque.value
  {
    Product(
      p.id,
      dto.nome.GetOr(p.nome),
      dto.categoria.GetOr(p.categoria),
      if dto.descricao.Some? then dto.descricao else p.descricao,
      dto.preco.GetOr(p.preco),
      dto.quantidadeEstoque.GetOr(p.quantidadeEstoque))
  }

  /** create: inserts a row under the next id and returns it. */
  method Create(table: ProductTable, dto: CreateProductDto) returns (p: Product)
    requires table.Valid()
    modifies table
    ensures table.Valid()
    ensures p == Product(old(table.nextId), dto.nome, dto.categoria, dto.descricao, dto.preco, dto.quantidadeEstoque)
    ensures p.id !in old(table.rows)
    ensures table.rows == old(table.rows)[p.id := p]
    ensures table.nextId == old(table.nextId) + 1
  {
    p := Product(table.nextId, dto.nome, dto.categoria, dto.descricao, dto.preco, dto.quantidadeEstoque);
    table.rows := table.rows[p.id := p];
    table.nextId := table.nextId + 1;
  }

  /**
   * update: NotFound for an unknown id; otherwise only that row changes, and
   * only in the fields the dto carries.
   */
  method Update(table: ProductTable, id: int, dto: UpdateProductDto) returns (r: Result<Product, Exception>)
    requires table.Valid()
    modifies table
    ensures table.Valid() && table.nextId == old(table.nextId)
    ensures id !in old(table.rows) ==> r == Err(NotFound(ProductNotFound(id))) && table.rows == old(table.rows)
    ensures id in old(table.rows) ==>
              && r == Ok(Patch(old(table.rows)[id], dto))
              && table.rows == old(table.rows)[id := r.value]
  {
    var found := FindOne(table.rows, id);
    if found.Err? {
      return Err(found.error);
    }
    var product := Patch(found.value, dto);
    table.rows := table.rows[id := product];
    r := Ok(product);
  }

  /** remove: deletes the row, or NotFound when nothing was deleted. */
  method Remove(table: ProductTable, id: int) returns (r: Result<(), Exception>)
    requires table.Valid()
    modifies table
    ensures table.Valid() && table.nextId == old(table.nextId)
    ensures id in old(table.rows) ==> r == Ok(()) && table.rows == old(table.rows) - {id}
    ensures id !in old(table.rows) ==> r == Err(NotFound(ProductNotFound(id))) && table.rows == old(table.rows)
  {
    var deletedCount := if id in table.rows then 1 else 0;
    table.rows := table.rows - {id};
    if deletedCount == 0 {
      return Err(NotFound(ProductNotFound(id)));
    }
    r := Ok(());
  }

  /**
   * atualizarEstoque: a credit (incrementar) adds to the stock; a debit
   * first checks that the stock covers it and fails, changing nothing, when
   * it does not. Only the stock field of that one product changes.
   */
  method AtualizarEstoque(table: ProductTable, productId: int, quantidade: int, incrementar: bool)
    returns (r: Result<Product, Exception>)
    requires table.Valid()
    modifies table
    ensures table.Valid() && table.nextId == old(table.nextId)
    ensures productId !in old(table.rows) ==>
              r == Err(NotFound(ProductNotFound(productId))) && table.rows == old(table.rows)
    ensures productId in old(table.rows) && !incrementar && old(table.rows)[productId].quantidadeEstoque < quantidade ==>
              && r == Err(BadRequest(InsufficientStock(old(table.rows)[productId].nome, old(table.rows)[productId].quantidadeEstoque)))
              && table.rows == old(table.rows)
    ensures productId in old(table.rows) && incrementar ==>
              && r.Ok?
              && r.value.quantidadeEstoque == old(table.rows)[productId].quantidadeEstoque + quantidade
    ensures productId in old(table.rows) && !incrementar && quantidade <= old(table.rows)[productId].quantidadeEstoque ==>
              && r.Ok?
              && r.value.quantidadeEstoque == old(table.rows)[productId].quantidadeEstoque - quantidade
              && r.value.quantidadeEstoque >= 0
    ensures r.Ok? ==>
              && r.value == old(table.rows)[productId].(quantidadeEstoque := r.value.quantidadeEstoque)
              && table.rows == old(table.rows)[productId := r.value]
  {
    var found := FindOne(table.rows, productId);
    if found.Err? {
      return Err(found.error);
    }
    var product := found.value;
    if !incrementar && product.quantidadeEstoque < quantidade {
      return Err(BadRequest(InsufficientStock(product.nome, product.quantidadeEstoque)));
    }
    var novaQuantidade := if incrementar then product.quantidadeEstoque + quantidade
                          else product.quantidadeEstoque - quantidade;
    r := Update(table, productId, UpdateProductDto(None, None, None, None, Some(novaQuantidade)));
  }
}
