/**
 * The backend path table (`endpoints` in `lib/api/endpoints.ts`): fixed
 * paths, and builders that append a resource id verbatim to a fixed prefix.
 * Every path lives under `/api/v1/`; a fixed path is one segment below it,
 * a built path is a segment, a `/`, and then the id.
 */
module Endpoints {
  import opened Wrappers

  const ApiPrefix: string := "/api/v1/"

  /** The fixed entries of the table, named after their group and key. */
  datatype Static =
    | AuthRegister | AuthLogin | AuthLogout
    | UsersMe | UsersAll | UsersUpdateProfile
    | BannersList | BannersCreate
    | PromosList | PromosCreate
    | CategoriesList | CategoriesCreate
    | ActivitiesList | ActivitiesCreate
    | PaymentMethodsList | PaymentMethodsGenerate
    | CartsList | CartsAdd
    | TransactionsMine | TransactionsAll | TransactionsCreate
    | UploadImage

  /** The id-parameterised entries of the table. */
  datatype Builder =
    | UsersUpdateRole
    | BannerDetail | BannerUpdate | BannerDelete
    | PromoDetail | PromoUpdate | PromoDelete
    | CategoryDetail | CategoryUpdate | CategoryDelete
    | ActivityDetail | ActivitiesByCategory | ActivityUpdate | ActivityDelete
    | CartUpdate | CartDelete
    | TransactionDetail | TransactionCancel | TransactionUpdateProof | TransactionUpdateStatus

  function StaticSegment(e: Static): string {
    match e
    case AuthRegister => "register"
    case AuthLogin => "login"
    case AuthLogout => "logout"
    case UsersMe => "user"
    case UsersAll => "all-user"
    case UsersUpdateProfile => "update-profile"
    case BannersList => "banners"
    case BannersCreate => "create-banner"
    case PromosList => "promos"
    case PromosCreate => "create-promo"
    case CategoriesList => "categories"
    case CategoriesCreate => "create-category"
    case ActivitiesList => "activities"
    case ActivitiesCreate => "create-activity"
    case PaymentMethodsList => "payment-methods"
    case PaymentMethodsGenerate => "generate-payment-methods"
    case CartsList => "carts"
    case CartsAdd => "add-cart"
    case TransactionsMine => "my-transactions"
    case TransactionsAll => "all-transactions"
    case TransactionsCreate => "create-transaction"
    case UploadImage => "upload-image"
  }

  function BuilderSegment(b: Builder): string {
    match b
    case UsersUpdateRole => "update-user-role"
    case BannerDetail => "banner"
    case BannerUpdate => "update-banner"
    case BannerDelete => "delete-banner"
    case PromoDetail => "promo"
    case PromoUpdate => "update-promo"
    case PromoDelete => "delete-promo"
    case CategoryDetail => "category"
    case CategoryUpdate => "update-category"
    case CategoryDelete => "delete-category"
    case ActivityDetail => "activity"
    case ActivitiesByCategory => "activities-by-category"
    case ActivityUpdate => "update-activity"
    case ActivityDelete => "delete-activity"
    case CartUpdate => "update-cart"
    case CartDelete => "delete-cart"
    case TransactionDetail => "transaction"
    case TransactionCancel => "cancel-transaction"
    case TransactionUpdateProof => "update-transaction-proof-payment"
    case TransactionUpdateStatus => "update-transaction-status"
  }

  /** A fixed path, e.g. `endpoints.auth.login` is `/api/v1/login`. */
  function StaticPath(e: Static): string {
    ApiPrefix + StaticSegment(e)
  }

  /** The prefix of a builder, e.g. `/api/v1/banner/` for `endpoints.banners.detail`. */
  function BuilderPrefix(b: Builder): string {
    ApiPrefix + BuilderSegment(b) + "/"
  }

  /** A builder applied to an id: the template literal `${prefix}${id}`, no encoding. */
  function Build(b: Builder, id: string): string {
    BuilderPrefix(b) + id
  }

  /** Which fixed entry owns a segment, if any: a left inverse of `StaticSegment`, looked up by length first. */
  function StaticOwner(segment: string): Option<Static> {
    match |segment|
    case 4 =>
      if segment == "user" then Some(UsersMe)
      else None
    case 5 =>
      if segment == "login" then Some(AuthLogin)
      else if segment == "carts" then Some(CartsList)
      else None
    case 6 =>
      if segment == "logout" then Some(AuthLogout)
      else if segment == "promos" then Some(PromosList)
      else None
    case 7 =>
      if segment == "banners" then Some(BannersList)
      else None
    case 8 =>
      if segment == "register" then Some(AuthRegister)
      else if segment == "all-user" then Some(UsersAll)
      else if segment == "add-cart" then Some(CartsAdd)
      else None
    case 10 =>
      if segment == "categories" then Some(CategoriesList)
      else if segment == "activities" then Some(ActivitiesList)
      else None
    case 12 =>
      if segment == "create-promo" then Some(PromosCreate)
      else if segment == "upload-image" then Some(UploadImage)
      else None
    case 13 =>
      if segment == "create-banner" then Some(BannersCreate)
      else None
    case 14 =>
      if segment == "update-profile" then Some(UsersUpdateProfile)
      else None
    case 15 =>
      if segment == "create-category" then Some(CategoriesCreate)
      else if segment == "create-activity" then Some(ActivitiesCreate)
      else if segment == "payment-methods" then Some(PaymentMethodsList)
      else if segment == "my-transactions" then Some(TransactionsMine)
      else None
    case 16 =>
      if segment == "all-transactions" then Some(TransactionsAll)
      else None
    case 18 =>
      if segment == "create-transaction" then Some(TransactionsCreate)
      else None
    case 24 =>
      if segment == "generate-payment-methods" then Some(PaymentMethodsGenerate)
      else None
    case _ => None
  }

  /** Which builder owns a segment, if any: a left inverse of `BuilderSegment`, looked up by length first. */
  function BuilderOwner(segment: string): Option<Builder> {
    match |segment|
    case 5 =>
      if segment == "promo" then Some(PromoDetail)
      else None
    case 6 =>
      if segment == "banner" then Some(BannerDetail)
      else None
    case 8 =>
      if segment == "category" then Some(CategoryDetail)
      else if segment == "activity" then Some(ActivityDetail)
      else None
    case 11 =>
      if segment == "update-cart" then Some(CartUpdate)
      else if segment == "delete-cart" then Some(CartDelete)
      else if segment == "transaction" then Some(TransactionDetail)
      else None
    case 12 =>
      if segment == "update-promo" then Some(PromoUpdate)
      else if segment == "delete-promo" then Some(PromoDelete)
      else None
    case 13 =>
      if segment == "update-banner" then Some(BannerUpdate)
      else if segment == "delete-banner" then Some(BannerDelete)
      else None
    case 15 =>
      if segment == "update-category" then Some(CategoryUpdate)
      else if segment == "delete-category" then Some(CategoryDelete)
      else if segment == "update-activity" then Some(ActivityUpdate)
      else if segment == "delete-activity" then Some(ActivityDelete)
      else None
    case 16 =>
      if segment == "update-user-role" then Some(UsersUpdateRole)
      else None
    case 18 =>
      if segment == "cancel-transaction" then Some(TransactionCancel)
      else None
    case 22 =>
      if segment == "activities-by-category" then Some(ActivitiesByCategory)
      else None
    case 25 =>
      if segment == "update-transaction-status" then Some(TransactionUpdateStatus)
      else None
    case 32 =>
      if segment == "update-transaction-proof-payment" then Some(TransactionUpdateProof)
      else None
    case _ => None
  }

  /** Each fixed segment is owned by exactly its entry, so distinct entries have distinct segments. */
  lemma StaticSegmentOwner(e: Static)
    ensures StaticOwner(StaticSegment(e)) == Some(e)
  {
  }

  // The slash-free facts below are split into small groups of entries only
  // so that each proof obligation stays small for the solver; the groups
  // carry no meaning of their own.

  /** The fixed entries of the `auth` and `users` groups are single non-empty path segments. */
  lemma AuthAndUserSegmentsAreSingle(e: Static)
    requires e.AuthRegister? || e.AuthLogin? || e.AuthLogout? || e.UsersMe? || e.UsersAll? || e.UsersUpdateProfile?
    ensures StaticSegment(e) != [] && '/' !in StaticSegment(e)
  {
  }

  /** The fixed entries of the `banners`, `promos` and `categories` groups are single non-empty path segments. */
  lemma BannerPromoCategorySegmentsAreSingle(e: Static)
    requires e.BannersList? || e.BannersCreate? || e.PromosList? || e.PromosCreate? || e.CategoriesList? || e.CategoriesCreate?
    ensures StaticSegment(e) != [] && '/' !in StaticSegment(e)
  {
  }

  /** The fixed entries of the `activities` and `paymentMethods` groups are single non-empty path segments. */
  lemma ActivityPaymentSegmentsAreSingle(e: Static)
    requires e.ActivitiesList? || e.ActivitiesCreate? || e.PaymentMethodsList? || e.PaymentMethodsGenerate?
    ensures StaticSegment(e) != [] && '/' !in StaticSegment(e)
  {
  }

  /** The fixed entries of the `carts` group and the first `transactions` entries are single non-empty path segments. */
  lemma CartAndTransactionSegmentsAreSingle(e: Static)
    requires e.CartsList? || e.CartsAdd? || e.TransactionsMine? || e.TransactionsAll?
    ensures StaticSegment(e) != [] && '/' !in StaticSegment(e)
  {
  }

  /** The fixed entries of `transactions.create` and the `upload` group are single non-empty path segments. */
  lemma CreateTransactionUploadSegmentsAreSingle(e: Static)
    requires e.TransactionsCreate? || e.UploadImage?
    ensures StaticSegment(e) != [] && '/' !in StaticSegment(e)
  {
  }

  /** Each fixed segment is a single non-empty path segment. */
  lemma StaticSegmentIsSingle(e: Static)
    ensures StaticSegment(e) != [] && '/' !in StaticSegment(e)
  {
    if e.AuthRegister? || e.AuthLogin? || e.AuthLogout? || e.UsersMe? || e.UsersAll? || e.UsersUpdateProfile? {
      AuthAndUserSegmentsAreSingle(e);
    } else if e.BannersList? || e.BannersCreate? || e.PromosList? || e.PromosCreate? || e.CategoriesList? || e.CategoriesCreate? {
      BannerPromoCategorySegmentsAreSingle(e);
    } else if e.ActivitiesList? || e.ActivitiesCreate? || e.PaymentMethodsList? || e.PaymentMethodsGenerate? {
      ActivityPaymentSegmentsAreSingle(e);
    } else if e.CartsList? || e.CartsAdd? || e.TransactionsMine? || e.TransactionsAll? {
      CartAndTransactionSegmentsAreSingle(e);
    } else {
      CreateTransactionUploadSegmentsAreSingle(e);
    }
  }

  /** Each builder segment is owned by exactly its builder, so distinct builders have distinct segments. */
  lemma BuilderSegmentOwner(b: Builder)
    ensures BuilderOwner(BuilderSegment(b)) == Some(b)
  {
  }

  // As above, the builder groups only keep each proof obligation small.

  /** The builders of the `users` and `banners` groups are single non-empty path segments. */
  lemma UserBannerBuilderSegmentsAreSingle(b: Builder)
    requires b.UsersUpdateRole? || b.BannerDetail? || b.BannerUpdate? || b.BannerDelete?
    ensures BuilderSegment(b) != [] && '/' !in BuilderSegment(b)
  {
  }

  /** The builders of the `promos` and `categories` groups are single non-empty path segments. */
  lemma PromoCategoryBuilderSegmentsAreSingle(b: Builder)
    requires b.PromoDetail? || b.PromoUpdate? || b.PromoDelete? || b.CategoryDetail? || b.CategoryUpdate? || b.CategoryDelete?
    ensures BuilderSegment(b) != [] && '/' !in BuilderSegment(b)
  {
  }

  /** The builders of the `activities` group are single non-empty path segments. */
  lemma ActivityBuilderSegmentsAreSingle(b: Builder)
    requires b.ActivityDetail? || b.ActivitiesByCategory? || b.ActivityUpdate? || b.ActivityDelete?
    ensures BuilderSegment(b) != [] && '/' !in BuilderSegment(b)
  {
  }

  /** The builders of the `carts` group and the first `transactions` builders are single non-empty path segments. */
  lemma CartTransactionBuilderSegmentsAreSingle(b: Builder)
    requires b.CartUpdate? || b.CartDelete? || b.TransactionDetail? || b.TransactionCancel?
    ensures BuilderSegment(b) != [] && '/' !in BuilderSegment(b)
  {
  }

  /** The builders of the `transactions` update builders are single non-empty path segments. */
  lemma TransactionUpdateBuilderSegmentsAreSingle(b: Builder)
    requires b.TransactionUpdateProof? || b.TransactionUpdateStatus?
    ensures BuilderSegment(b) != [] && '/' !in BuilderSegment(b)
  {
  }

  /** Each builder segment is a single non-empty path segment. */
  lemma BuilderSegmentIsSingle(b: Builder)
    ensures BuilderSegment(b) != [] && '/' !in BuilderSegment(b)
  {
    if b.UsersUpdateRole? || b.BannerDetail? || b.BannerUpdate? || b.BannerDelete? {
      UserBannerBuilderSegmentsAreSingle(b);
    } else if b.PromoDetail? || b.PromoUpdate? || b.PromoDelete? || b.CategoryDetail? || b.CategoryUpdate? || b.CategoryDelete? {
      PromoCategoryBuilderSegmentsAreSingle(b);
    } else if b.ActivityDetail? || b.ActivitiesByCategory? || b.ActivityUpdate? || b.ActivityDelete? {
      ActivityBuilderSegmentsAreSingle(b);
    } else if b.CartUpdate? || b.CartDelete? || b.TransactionDetail? || b.TransactionCancel? {
      CartTransactionBuilderSegmentsAreSingle(b);
    } else {
      TransactionUpdateBuilderSegmentsAreSingle(b);
    }
  }

  lemma PrefixOfConcat(p: string, s: string)
    ensures p <= p + s
  {
    assert (p + s)[..|p|] == p;
  }

  /** Every fixed path and every built path begins with `/api/v1/`. */
  lemma AllPathsUnderApiPrefix(e: Static, b: Builder, id: string)
    ensures ApiPrefix <= StaticPath(e)
    ensures ApiPrefix <= Build(b, id)
  {
    PrefixOfConcat(ApiPrefix, StaticSegment(e));
    var rest := BuilderSegment(b) + "/" + id;
    assert Build(b, id) == ApiPrefix + rest;
    PrefixOfConcat(ApiPrefix, rest);
  }

  /** A built path is its builder's prefix followed by the id, verbatim. */
  lemma BuildAppendsIdVerbatim(b: Builder, id: string)
    ensures BuilderPrefix(b) <= Build(b, id)
    ensures Build(b, id)[|BuilderPrefix(b)|..] == id
  {
    assert Build(b, id)[..|BuilderPrefix(b)|] == BuilderPrefix(b);
  }

  /** The fixed paths are pairwise distinct. */
  lemma StaticPathsDistinct(e1: Static, e2: Static)
    requires e1 != e2
    ensures StaticPath(e1) != StaticPath(e2)
  {
    StaticSegmentOwner(e1);
    StaticSegmentOwner(e2);
    assert StaticPath(e1)[|ApiPrefix|..] == StaticSegment(e1);
    assert StaticPath(e2)[|ApiPrefix|..] == StaticSegment(e2);
  }

  /** `p s1/t1 == p s2/t2` with `/`-free segments forces equal segments and equal tails. */
  lemma SegmentThenSlash(p: string, s1: string, t1: string, s2: string, t2: string)
    requires '/' !in s1 && '/' !in s2
    requires p + s1 + "/" + t1 == p + s2 + "/" + t2
    ensures s1 == s2 && t1 == t2
  {
    var w := p + s1 + "/" + t1;
    assert w[|p| + |s1|] == '/' && w[|p| + |s2|] == '/';
    assert |s1| == |s2|;
    assert s1 == w[|p|..|p| + |s1|] == s2;
    assert t1 == w[|p| + |s1| + 1..] == t2;
  }

  /**
   * Built paths never collide: different builders, or different ids, always
   * give different paths. In particular each builder is injective in its id,
   * and an entity's detail, update and delete paths for one id are distinct.
   */
  lemma BuildInjective(b1: Builder, id1: string, b2: Builder, id2: string)
    requires Build(b1, id1) == Build(b2, id2)
    ensures b1 == b2 && id1 == id2
  {
    var s1, s2 := BuilderSegment(b1), BuilderSegment(b2);
    BuilderSegmentIsSingle(b1);
    BuilderSegmentIsSingle(b2);
    SegmentThenSlash(ApiPrefix, s1, id1, s2, id2);
    BuilderSegmentOwner(b1);
    BuilderSegmentOwner(b2);
  }

  /** No built path is ever one of the fixed paths: the former have a `/` after their segment. */
  lemma BuiltPathIsNeverStatic(b: Builder, id: string, e: Static)
    ensures Build(b, id) != StaticPath(e)
  {
    StaticSegmentIsSingle(e);
    var w := Build(b, id);
    var v := StaticPath(e);
    var k := |ApiPrefix| + |BuilderSegment(b)|;
    assert w[k] == '/';
    if |v| > k {
      assert v[k] == StaticSegment(e)[k - |ApiPrefix|];
    }
  }
}
