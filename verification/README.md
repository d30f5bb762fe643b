# Product registry model

This project models the in-memory product registry of `ProductsApp`:

- A `Product` is a mutable object with an optional `name` and an `isSold` flag. `Validate` rejects a missing name.
- A `Products` registry owns an insertion-ordered list of products. `AddNew` rejects a null product, then validates it, and only then appends it. `Sold` sets the flag of the product it is given, in place. `Items` is the unsold products in insertion order, recomputed from the current state on every read.

Products are references shared between the caller and the registry. A product marked sold through any reference leaves `Items`.

The .NET exceptions become values of the `Outcome` datatype: `Pass`, `Fail(ArgumentNull)` or `Fail(NameRequired)`.

Layout:

- `products_app.dfy`, module `ProductsApp`: the data model, the registry, the filter functions behind `Items` (`UnsoldOf`, `Without`) and the lemmas about them.
- `products_app_tests.dfy`, module `ProductsAppTests`: the four xUnit scenarios and a walkthrough that combines them. Each is a method whose postcondition is what the scenario asserts. `NamesOf` stands for the tests' `Select(f => f.Name)`.

Two behaviours are modelled exactly as the code has them, narrower than one might expect:

- Validation rejects only a null name. An empty name is accepted.
- `Sold` has no null check and no membership check of its own. The null case is excluded by the parameter's non-null type, not turned into an `ArgumentNull` failure.

## Model

| member | source | states |
|---|---|---|
| `ProductsApp.Product.constructor` | XUnitTestProject/ProductsApp.cs:93-94 | A new product holds exactly the given name and sold flag. |
| `ProductsApp.Product.Validate` | XUnitTestProject/ProductsApp.cs:96-100 | Passes exactly when the name is present, so an empty name passes. Fails with `NameRequired` exactly when the name is missing. Leaves the product unchanged either way. |
| `ProductsApp.UnsoldOf` | XUnitTestProject/ProductsApp.cs:74 | The filter behind `Items` is a subsequence of the stored list, so insertion order is kept. Each of its elements is stored and unsold. Each stored unsold product occurs in it. |
| `ProductsApp.UnsoldOfCount` | XUnitTestProject/ProductsApp.cs:74 | The filter keeps every occurrence of an unsold product and drops every occurrence of a sold one. |
| `ProductsApp.UnsoldOfAppend` | XUnitTestProject/ProductsApp.cs:74-81 | Filtering the list with one product appended gives the old filter, followed by that product exactly when it is unsold. |
| `ProductsApp.UnsoldOfMonotone` | XUnitTestProject/ProductsApp.cs:74-86 | Suppose flags only move from unsold to sold. Then the new unsold view is the old unsold view, filtered again under the current flags. |
| `ProductsApp.UnsoldOfOnlyOneSold` | XUnitTestProject/ProductsApp.cs:74-86 | Take a view where every element other than `p` is unsold and `p` is sold. Filtering it removes exactly `p` and keeps the rest in order. |
| `ProductsApp.WithoutLength` | XUnitTestProject/ProductsApp.cs:84-87 | Removing a product shortens the view by the number of times it occurs. |
| `ProductsApp.WithoutAbsent` | XUnitTestProject/ProductsApp.cs:84-87 | Removing a product that does not occur leaves the view unchanged. This is why selling a product never added leaves `Items` unchanged. |
| `ProductsApp.WithoutIdempotent` | XUnitTestProject/ProductsApp.cs:84-87 | Removing a product twice gives the same view as removing it once. This is the effect of selling the same product twice. |
| `ProductsApp.NamesOf` | XUnitTestProject/ProductsApp.cs:36 | The tests' `Select(f => f.Name)`: as many names as products, and each position holds that product's name. |
| `ProductsApp.Products.constructor` | XUnitTestProject/ProductsApp.cs:72 | A new registry stores nothing and lists nothing. |
| `ProductsApp.Products.Items` | XUnitTestProject/ProductsApp.cs:74 | The listing is a subsequence of the stored list. It holds exactly the stored products whose flag is currently unsold, each as many times as it is stored. |
| `ProductsApp.Products.AddNew` | XUnitTestProject/ProductsApp.cs:76-82 | A null argument fails with `ArgumentNull`. A missing name fails with `NameRequired`. Otherwise the call passes. On failure the stored list and the listing are unchanged. On success the stored list is the old one plus the product at the end, and the listing gains the product exactly when it is unsold. The product itself is never changed. |
| `ProductsApp.Products.Sold` | XUnitTestProject/ProductsApp.cs:84-87 | Afterwards the product is sold and its name is the same. Only that product may change (`modifies product`), and it does not change at all if it was already sold. The stored list is the same. The listing is the old listing with that product removed. A product never added leaves the listing unchanged. A product stored once and unsold before the call shortens the listing by exactly one. |
| `ProductsAppTests.AddNullFailsWithArgumentNull` | XUnitTestProject/ProductsApp.cs:13-23 | `AddNew(null)` on a new registry fails with `ArgumentNull`, and the listing stays empty. |
| `ProductsAppTests.AddedProductIsListed` | XUnitTestProject/ProductsApp.cs:26-37 | After adding an unsold "Apple", "Apple" is among the names listed by `Items`. |
| `ProductsAppTests.NullNameFailsValidation` | XUnitTestProject/ProductsApp.cs:40-51 | Adding a product with a null name fails with `NameRequired`, and nothing is stored. |
| `ProductsAppTests.SoldProductIsNotListed` | XUnitTestProject/ProductsApp.cs:54-66 | After adding "Apple" and marking it sold, "Apple" is not among the names listed. |
| `ProductsAppTests.RegistryWalkthrough` | XUnitTestProject/ProductsApp.cs:74-87 | The steps run on one registry: add "Apple", add null, add a nameless product, then sell "Apple". The listing is `["Apple"]` after each of the first three steps and empty after the sale. One product stays stored. |

## Left out

- The xUnit attributes and the `Assert` calls. Each scenario is kept as a method whose postcondition states what the test asserts.
- The constructors of `NameRequiredException`, including its serialization constructor, and the `[Serializable]` attribute. They carry no behaviour beyond the error kind, which is the `NameRequired` variant.
- The deferred enumeration of `Items`. `Items` is a function that returns the unsold products of the current state, so it keeps "reflects the current state". In the C# code, calling `AddNew` while an enumeration of `Items` is still open changes the list under its enumerator, and the next step of that enumeration throws `InvalidOperationException`. The model has no open enumerations and does not model that failure.
- `Sold(null)`. The C# code dereferences null there, with no defined error, so `Sold` takes a non-null `Product`.
- Exception identity and messages. Only the kind of error is modelled.
- Strings are `seq<char>`. .NET string semantics beyond equality are not needed here.
