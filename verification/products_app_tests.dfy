/**
 * The registry's four xUnit scenarios, each as a method that builds a fresh
 * registry, performs the scenario's steps and promises what the scenario
 * asserts about the outcome or the names listed by `Items`.
 */
module ProductsAppTests {
  import opened ProductsApp

  /** Adding a null product fails with the argument-null error. */
  method AddNullFailsWithArgumentNull() returns (r: Outcome, items: seq<Product>)
    ensures r == Fail(ArgumentNull)
    ensures items == []
  {
    var sut := new Products();
    r := sut.AddNew(null);
    items := sut.Items();
  }

  /** After adding "Apple", "Apple" is among the names of the unsold products. */
  method AddedProductIsListed() returns (names: seq<Option<string>>)
    ensures Some("Apple") in names
  {
    var sut := new Products();
    var apple := new Product(Some("Apple"), false);
    var _ := sut.AddNew(apple);
    names := NamesOf(sut.Items());
  }

  /** Adding a product whose name is null fails validation and stores nothing. */
  method NullNameFailsValidation() returns (r: Outcome, stored: seq<Product>)
    ensures r == Fail(NameRequired)
    ensures stored == []
  {
    var sut := new Products();
    var nameless := new Product(None, false);
    r := sut.AddNew(nameless);
    stored := sut.products;
  }

  /** After adding "Apple" and marking it sold, "Apple" is not listed. */
  method SoldProductIsNotListed() returns (names: seq<Option<string>>)
    ensures Some("Apple") !in names
  {
    var sut := new Products();
    var apple := new Product(Some("Apple"), false);
    var _ := sut.AddNew(apple);
    sut.Sold(apple);
    names := NamesOf(sut.Items());
  }

  /**
   * The four steps in one registry: the failed additions leave the listing
   * as it was, and selling the only product empties it while it stays stored.
   */
  method RegistryWalkthrough() returns (afterAdd: seq<Option<string>>, afterNull: seq<Option<string>>,
                                        afterNameless: seq<Option<string>>, afterSold: seq<Option<string>>,
                                        storedCount: nat)
    ensures afterAdd == afterNull == afterNameless == [Some("Apple")]
    ensures afterSold == []
    ensures storedCount == 1
  {
    var sut := new Products();
    var apple := new Product(Some("Apple"), false);
    var _ := sut.AddNew(apple);
    assert sut.products == [apple] && sut.Items() == [apple];
    afterAdd := NamesOf(sut.Items());
    var _ := sut.AddNew(null);
    assert sut.products == [apple] && sut.Items() == [apple];
    afterNull := NamesOf(sut.Items());
    var nameless := new Product(None, false);
    var _ := sut.AddNew(nameless);
    assert sut.products == [apple] && sut.Items() == [apple];
    afterNameless := NamesOf(sut.Items());
    sut.Sold(apple);
    assert sut.Items() == [];
    afterSold := NamesOf(sut.Items());
    storedCount := |sut.products|;
  }
}
