/** The message-based product catalog (`src/productcatalogservice/mod.rs`):
    the same listing, lookup and search as `ProductCatalog`, behind one
    request/response handler, and the client that unpacks responses. A
    handler panic is taken to reach the client as a transport error, which
    is the runtime's behaviour rather than this file's. */
module ProductCatalogRpc {
  import opened Results
  import opened SharedTypes
  import Catalog = ProductCatalog

  datatype ProductCatalogRequest =
    | ListProductsRequest
    | GetProductRequest(id: string)
    | SearchProductsRequest(query: string)

  datatype ProductCatalogResponse =
    | ListProductsResponse(products: seq<Product>)
    | GetProductResponse(product: Product)
    | SearchProductsResponse(results: seq<Product>)

  /** Whatever keeps a call from returning a response: the service panicked
      or the transport failed. */
  datatype RpcError = RpcError

  /** `ProductCatalogService::list_products`. */
  function ListProducts(catalog: seq<Product>): (r: seq<Product>)
    ensures r == catalog
  {
    Catalog.ListProducts(catalog)
  }

  /** `ProductCatalogService::get_product`: the first product with the id,
      or the "no such product with ID" panic. */
  function GetProduct(catalog: seq<Product>, id: string): (r: Result<Product, Catalog.CatalogError>)
    ensures r.Failure? <==> forall i :: 0 <= i < |catalog| ==> catalog[i].id != id
    ensures r.Success? ==>
              exists i :: 0 <= i < |catalog| && catalog[i] == r.value && r.value.id == id
                          && forall j :: 0 <= j < i ==> catalog[j].id != id
  {
    Catalog.GetProduct(catalog, id)
  }

  /** `ProductCatalogService::search_products`. */
  function SearchProducts(catalog: seq<Product>, query: string): (r: seq<Product>)
    ensures Catalog.IsSubsequence(r, catalog)
    ensures forall p :: p in r <==> p in catalog && Catalog.Matches(p, Catalog.ToLower(query))
    ensures forall p :: multiset(r)[p] == if Catalog.Matches(p, Catalog.ToLower(query)) then multiset(catalog)[p] else 0
  {
    Catalog.SearchProducts(catalog, query)
  }

  /** `RpcHandler::handle`: each request answered by the response of the same
      kind, or the panic of `get_product`. */
  function Handle(catalog: seq<Product>, q: ProductCatalogRequest): (r: Result<ProductCatalogResponse, RpcError>)
    ensures q.ListProductsRequest? ==> r == Success(ListProductsResponse(catalog))
    ensures q.GetProductRequest? ==>
              (r.Success? <==> exists i :: 0 <= i < |catalog| && catalog[i].id == q.id)
    ensures q.GetProductRequest? && r.Success? ==>
              r.value.GetProductResponse? && r.value.product.id == q.id && r.value.product in catalog
    ensures q.SearchProductsRequest? ==>
              r.Success? && r.value.SearchProductsResponse?
              && Catalog.IsSubsequence(r.value.results, catalog)
              && forall p :: multiset(r.value.results)[p]
                             == if Catalog.Matches(p, Catalog.ToLower(q.query)) then multiset(catalog)[p] else 0
  {
    match q
    case ListProductsRequest => Success(ListProductsResponse(ListProducts(catalog)))
    case GetProductRequest(id) =>
      (match GetProduct(catalog, id)
       case Success(p) => Success(GetProductResponse(p))
       case Failure(_) => Failure(RpcError))
    case SearchProductsRequest(query) => Success(SearchProductsResponse(SearchProducts(catalog, query)))
  }

  /** `ProductCatalogClient::list_products`: only a `ListProducts` response
      counts; any other response or error becomes `Err(())`. */
  function ClientListProducts(reply: Result<ProductCatalogResponse, RpcError>): (r: Result<seq<Product>, ()>)
    ensures r.Success? <==> reply.Success? && reply.value.ListProductsResponse?
    ensures r.Success? ==> r.value == reply.value.products
  {
    match reply
    case Success(ListProductsResponse(products)) => Success(products)
    case _ => Failure(())
  }

  /** `ProductCatalogClient::get_product`. */
  function ClientGetProduct(reply: Result<ProductCatalogResponse, RpcError>): (r: Result<Product, ()>)
    ensures r.Success? <==> reply.Success? && reply.value.GetProductResponse?
    ensures r.Success? ==> r.value == reply.value.product
  {
    match reply
    case Success(GetProductResponse(product)) => Success(product)
    case _ => Failure(())
  }

  /** `ProductCatalogClient::search_products`. */
  function ClientSearchProducts(reply: Result<ProductCatalogResponse, RpcError>): (r: Result<seq<Product>, ()>)
    ensures r.Success? <==> reply.Success? && reply.value.SearchProductsResponse?
    ensures r.Success? ==> r.value == reply.value.results
  {
    match reply
    case Success(SearchProductsResponse(results)) => Success(results)
    case _ => Failure(())
  }

  /** Client over handler: a lookup through the messages gives exactly the
      service's answer, a missing product becoming `Err(())`. */
  lemma ClientGetProductThroughHandle(catalog: seq<Product>, id: string)
    ensures ClientGetProduct(Handle(catalog, GetProductRequest(id))).Success?
            <==> GetProduct(catalog, id).Success?
    ensures GetProduct(catalog, id).Success? ==>
              ClientGetProduct(Handle(catalog, GetProductRequest(id))).value == GetProduct(catalog, id).value
  {
  }

  /** Client over handler, for listing and search: always answered, with
      the service's own result. */
  lemma ClientListAndSearchThroughHandle(catalog: seq<Product>, query: string)
    ensures ClientListProducts(Handle(catalog, ListProductsRequest)) == Success(catalog)
    ensures ClientSearchProducts(Handle(catalog, SearchProductsRequest(query)))
            == Success(SearchProducts(catalog, query))
  {
  }

  /** A response of the wrong kind is refused by every client call but the
      matching one. */
  lemma ClientRejectsMismatchedResponse(products: seq<Product>)
    ensures ClientGetProduct(Success(ListProductsResponse(products))) == Failure(())
    ensures ClientSearchProducts(Success(ListProductsResponse(products))) == Failure(())
    ensures ClientListProducts(Success(SearchProductsResponse(products))) == Failure(())
    ensures ClientListProducts(Failure(RpcError)) == Failure(())
  {
  }
}
