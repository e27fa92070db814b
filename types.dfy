/** The record types of the application: the category enumeration with its
    `all` filter sentinel, and the recipe record. */
module Types {

  datatype Option<T> = None | Some(value: T)

  /** The categories a recipe can be filed under, plus `All`, which exists
      only as the "no category filter" choice of the navigation bar. */
  datatype Category = Primero | Segundo | Postre | All

  /** The string value each enumeration member stands for: a non-empty
      word of lower-case ASCII letters. */
  function CategoryName(c: Category): (name: string)
    ensures name != []
    ensures forall i :: 0 <= i < |name| ==> 'a' <= name[i] <= 'z'
  {
    match c
    case Primero => "primero"
    case Segundo => "segundo"
    case Postre => "postre"
    case All => "all"
  }

  /** The four members carry four different strings, so comparing names
      identifies the category. */
  lemma CategoryNameInjective(c: Category, d: Category)
    ensures CategoryName(c) == CategoryName(d) ==> c == d
  {
  }

  /** A recipe as the application holds it.  `category` is the string the
      content provider sent, compared case-insensitively by the filter;
      `imageUrl` is optional; `rating10` is the average rating in tenths
      (4.1 stars is 41) and `votes` the number of ratings behind it. */
  datatype Recipe = Recipe(
    id: string,
    title: string,
    category: string,
    summary: string,
    fullDescription: string,
    ingredients: seq<string>,
    steps: seq<string>,
    imageUrl: Option<string>,
    rating10: nat,
    votes: nat)
}
