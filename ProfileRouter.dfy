/**
 * The profile endpoints: reading and partially updating the buyer's and
 * the supplier's own profile.  An update trims each text it is given,
 * stores an empty one as no value, rejects one that is too long with
 * status 400, and writes the profile only when some field was given.  A
 * rejected update writes nothing.
 */
module ProfileRouter {
  import opened Wrappers
  import opened Text
  import opened UserModels
  import opened ApiErrors
  import ImageUtils

  /** The text columns an update may change. */
  datatype Field = Phone | PaymentMethod | Website | Description | Location | ReturnPolicy

  /** The longest value the endpoint accepts for a field, after trimming; none for the text columns. */
  function Limit(f: Field): Option<nat> {
    match f
    case Phone => Some(20)
    case PaymentMethod => Some(100)
    case Website => Some(255)
    case Location => Some(255)
    case Description => None
    case ReturnPolicy => None
  }

  function TooLong(f: Field): string {
    match f
    case Phone => "Phone number must be at most 20 characters"
    case PaymentMethod => "Payment method must be at most 100 characters"
    case Website => "Website URL must be at most 255 characters"
    case Location => "Main production location must be at most 255 characters"
    case Description => ""
    case ReturnPolicy => ""
  }

  function Get(p: Profile, f: Field): Option<string> {
    match f
    case Phone => p.phone
    case PaymentMethod => p.paymentMethod
    case Website => p.website
    case Description => p.description
    case Location => p.location
    case ReturnPolicy => p.returnPolicy
  }

  function Set(p: Profile, f: Field, v: Option<string>): (r: Profile)
    ensures Get(r, f) == v
    ensures forall g :: g != f ==> Get(r, g) == Get(p, g)
    ensures r.kind == p.kind && r.user == p.user && r.companyName == p.companyName && r.logo == p.logo
  {
    match f
    case Phone => p.(phone := v)
    case PaymentMethod => p.(paymentMethod := v)
    case Website => p.(website := v)
    case Description => p.(description := v)
    case Location => p.(location := v)
    case ReturnPolicy => p.(returnPolicy := v)
  }

  /** `v if v else None` of the trimmed text. */
  function Cleaned(v: string): (r: Option<string>)
    ensures r.None? <==> Strip(v) == []
    ensures r.Some? ==> r.value == Strip(v) && IsStripped(r.value)
  {
    var s := Strip(v);
    if s == [] then None else Some(s)
  }

  /** A stored value the endpoint could have written: trimmed, non-empty, within the field's limit. */
  predicate Acceptable(f: Field, v: Option<string>) {
    v.Some? ==> v.value != [] && IsStripped(v.value) && (Limit(f).Some? ==> |v.value| <= Limit(f).value)
  }

  /** An update so far: the edited profile and whether any field was given, or the error that ended it. */
  type Progress = Result<(Profile, bool), HttpError>

  /** One field's `if value is not None:` block. */
  function FieldStep(acc: Progress, f: Field, given: Option<string>): (r: Progress)
    ensures acc.Err? ==> r == acc
    ensures acc.Ok? && given.None? ==> r == acc
    ensures acc.Ok? && given.Some? ==>
      (r.Err? <==> Limit(f).Some? && |Strip(given.value)| > Limit(f).value)
    ensures acc.Ok? && r.Err? ==> r.error == HttpError(400, TooLong(f))
    ensures acc.Ok? && given.Some? && r.Ok? ==>
      r.value == (Set(acc.value.0, f, Cleaned(given.value)), true) && Acceptable(f, Cleaned(given.value))
  {
    if acc.Err? || given.None? then acc
    else
      var s := Strip(given.value);
      if Limit(f).Some? && |s| > Limit(f).value then Err(HttpError(400, TooLong(f)))
      else Ok((Set(acc.value.0, f, Cleaned(given.value)), true))
  }

  /**
   * An uploaded file, with what the image library would make of it: whether
   * it decodes (and the decoder's message when it does not) and the WebP
   * size at each quality.
   */
  datatype Upload = Upload(
    name: string, contentType: Option<string>, size: nat,
    decodes: bool, detail: string, sizeAt: int -> nat)

  /** The stored logo for an upload: validated, converted to WebP, named under the kind's folder. */
  function LogoOutcome(kind: ProfileKind, logo: Upload): (r: Result<string, HttpError>)
    ensures var check := ImageUtils.ValidateImageFile(logo.contentType, logo.size, None, ImageUtils.MAX_FILE_SIZE);
      !check.0 ==> r == Err(HttpError(400, check.1.value))
    ensures r.Err? ==> r.error.status == 400
    ensures r.Ok? ==> r.value == LogoFolder(kind) + ImageUtils.WebpName(logo.name)
  {
    var check := ImageUtils.ValidateImageFile(logo.contentType, logo.size, None, ImageUtils.MAX_FILE_SIZE);
    if !check.0 then Err(HttpError(400, check.1.value))
    else
      match ImageUtils.ConvertOutcome(logo.name, logo.decodes, logo.detail, logo.sizeAt,
                                      ImageUtils.MAX_FILE_SIZE, ImageUtils.WEBP_QUALITY)
      case Err(e) => Err(HttpError(400, e))
      case Ok(c) => Ok(LogoFolder(kind) + c.name)
  }

  function LogoFolder(kind: ProfileKind): string {
    match kind
    case BuyerProfile => "buyer_logos/"
    case SupplierProfile => "supplier_logos/"
  }

  /** The logo block. */
  function LogoStep(acc: Progress, logo: Option<Upload>): (r: Progress)
    ensures acc.Err? || logo.None? ==> r == acc
    ensures acc.Ok? && logo.Some? && LogoOutcome(acc.value.0.kind, logo.value).Err? ==>
      r == Err(LogoOutcome(acc.value.0.kind, logo.value).error)
    ensures acc.Ok? && logo.Some? && LogoOutcome(acc.value.0.kind, logo.value).Ok? ==>
      r == Ok((acc.value.0.(logo := Some(LogoOutcome(acc.value.0.kind, logo.value).value)), true))
  {
    if acc.Err? || logo.None? then acc
    else
      match LogoOutcome(acc.value.0.kind, logo.value)
      case Err(e) => Err(e)
      case Ok(name) => Ok((acc.value.0.(logo := Some(name)), true))
  }

  /** The role check, then the caller's profile of that kind (404 when it has none). */
  function OwnProfile(profiles: seq<Profile>, user: User, kind: ProfileKind, forbidden: string, missing: string)
    : (r: Result<Profile, HttpError>)
    ensures user.userType != TypeOf(kind) ==> r == Err(HttpError(403, forbidden))
    ensures user.userType == TypeOf(kind) && FindProfile(profiles, user.id, kind).None? ==> r == Err(HttpError(404, missing))
    ensures r.Ok? ==> r.value in profiles && r.value.user == user.id && r.value.kind == kind
    ensures r.Ok? ==> FindProfile(profiles, user.id, kind) == Some(r.value)
  {
    if user.userType != TypeOf(kind) then Err(HttpError(403, forbidden))
    else
      match FindProfile(profiles, user.id, kind)
      case None => Err(HttpError(404, missing))
      case Some(p) => Ok(p)
  }

  function TypeOf(kind: ProfileKind): string {
    match kind
    case BuyerProfile => BUYER
    case SupplierProfile => SUPPLIER
  }

  /** `get_buyer_profile`. */
  function GetBuyerProfile(profiles: seq<Profile>, user: User): (r: Result<Profile, HttpError>)
    ensures r.Ok? <==> user.userType == BUYER && FindProfile(profiles, user.id, BuyerProfile).Some?
    ensures r.Ok? ==> r.value in profiles && r.value.user == user.id && r.value.kind == BuyerProfile
    ensures r.Err? ==> r.error.status == (if user.userType != BUYER then 403 else 404)
  {
    OwnProfile(profiles, user, BuyerProfile, "Only buyers can access buyer profile", "Buyer profile not found")
  }

  /** `get_supplier_profile`. */
  function GetSupplierProfile(profiles: seq<Profile>, user: User): (r: Result<Profile, HttpError>)
    ensures r.Ok? <==> user.userType == SUPPLIER && FindProfile(profiles, user.id, SupplierProfile).Some?
    ensures r.Ok? ==> r.value in profiles && r.value.user == user.id && r.value.kind == SupplierProfile
    ensures r.Err? ==> r.error.status == (if user.userType != SUPPLIER then 403 else 404)
  {
    OwnProfile(profiles, user, SupplierProfile, "Only suppliers can access supplier profile", "Supplier profile not found")
  }

  /** The buyer's form fields, in the order the endpoint handles them. */
  function BuyerEdits(phone: Option<string>, paymentMethod: Option<string>): seq<(Field, Option<string>)> {
    [(Phone, phone), (PaymentMethod, paymentMethod)]
  }

  /** The supplier's form fields, in the order the endpoint handles them. */
  function SupplierEdits(phone: Option<string>, website: Option<string>, description: Option<string>,
                         location: Option<string>, returnPolicy: Option<string>, paymentMethod: Option<string>)
    : seq<(Field, Option<string>)>
  {
    [(Phone, phone), (Website, website), (Description, description),
     (Location, location), (ReturnPolicy, returnPolicy), (PaymentMethod, paymentMethod)]
  }

  /** The field blocks run in order; the first too-long value ends the update. */
  function ApplyEdits(acc: Progress, edits: seq<(Field, Option<string>)>): (r: Progress)
    decreases |edits|
  {
    if edits == [] then acc
    else ApplyEdits(FieldStep(acc, edits[0].0, edits[0].1), edits[1..])
  }

  /**
   * What an update does to the caller's profile: the role and profile
   * checks, the field blocks, then the logo.  The flag says whether the
   * profile is saved.
   */
  function UpdateOutcome(profiles: seq<Profile>, user: User, kind: ProfileKind, forbidden: string, missing: string,
                         edits: seq<(Field, Option<string>)>, logo: Option<Upload>): Progress
  {
    match OwnProfile(profiles, user, kind, forbidden, missing)
    case Err(e) => Err(e)
    case Ok(p) => LogoStep(ApplyEdits(Ok((p, false)), edits), logo)
  }

  function BuyerUpdateOutcome(profiles: seq<Profile>, user: User, phone: Option<string>, paymentMethod: Option<string>,
                              logo: Option<Upload>): Progress
  {
    UpdateOutcome(profiles, user, BuyerProfile, "Only buyers can update buyer profile", "Buyer profile not found",
                  BuyerEdits(phone, paymentMethod), logo)
  }

  function SupplierUpdateOutcome(profiles: seq<Profile>, user: User, phone: Option<string>, website: Option<string>,
                                 description: Option<string>, location: Option<string>, returnPolicy: Option<string>,
                                 paymentMethod: Option<string>, logo: Option<Upload>): Progress
  {
    UpdateOutcome(profiles, user, SupplierProfile, "Only suppliers can update supplier profile", "Supplier profile not found",
                  SupplierEdits(phone, website, description, location, returnPolicy, paymentMethod), logo)
  }

  /** True when the edits name the field with a value. */
  predicate Gives(edits: seq<(Field, Option<string>)>, f: Field) {
    exists i :: 0 <= i < |edits| && edits[i].0 == f && edits[i].1.Some?
  }

  /** Fields given nowhere in the edits keep their value; a successful run's flag is set exactly when some field was given. */
  lemma {:induction false} ApplyEditsTouchesOnlyGiven(acc: Progress, edits: seq<(Field, Option<string>)>, f: Field)
    requires acc.Ok?
    requires ApplyEdits(acc, edits).Ok?
    ensures !Gives(edits, f) ==> Get(ApplyEdits(acc, edits).value.0, f) == Get(acc.value.0, f)
    ensures ApplyEdits(acc, edits).value.1 <==> acc.value.1 || exists i :: 0 <= i < |edits| && edits[i].1.Some?
    ensures var p := ApplyEdits(acc, edits).value.0;
      p.kind == acc.value.0.kind && p.user == acc.value.0.user &&
      p.companyName == acc.value.0.companyName && p.logo == acc.value.0.logo
    decreases |edits|
  {
    if edits != [] {
      var next := FieldStep(acc, edits[0].0, edits[0].1);
      if next.Err? {
        ApplyEditsErrStays(next, edits[1..]);
        assert false;
      }
      ApplyEditsTouchesOnlyGiven(next, edits[1..], f);
      if !Gives(edits, f) {
        assert !Gives(edits[1..], f) by {
          forall i | 0 <= i < |edits[1..]| && edits[1..][i].0 == f ensures edits[1..][i].1.None? {
            assert edits[1..][i] == edits[i + 1];
          }
        }
      }
      if exists i :: 0 <= i < |edits[1..]| && edits[1..][i].1.Some? {
        var i :| 0 <= i < |edits[1..]| && edits[1..][i].1.Some?;
        assert edits[i + 1].1.Some?;
      }
      if exists i :: 0 <= i < |edits| && edits[i].1.Some? {
        var i :| 0 <= i < |edits| && edits[i].1.Some?;
        if i > 0 {
          assert edits[1..][i - 1].1.Some?;
        }
      }
    }
  }

  /** Once a block has failed, the remaining blocks leave the error as it is. */
  lemma {:induction false} ApplyEditsErrStays(acc: Progress, edits: seq<(Field, Option<string>)>)
    requires acc.Err?
    ensures ApplyEdits(acc, edits) == acc
    decreases |edits|
  {
    if edits != [] {
      ApplyEditsErrStays(FieldStep(acc, edits[0].0, edits[0].1), edits[1..]);
    }
  }

  /** The field given last for `f` decides its stored value, which the endpoint's rules allow. */
  lemma {:induction false} ApplyEditsStoresCleaned(acc: Progress, edits: seq<(Field, Option<string>)>, i: nat)
    requires acc.Ok?
    requires ApplyEdits(acc, edits).Ok?
    requires i < |edits| && edits[i].1.Some?
    requires forall j :: i < j < |edits| ==> edits[j].0 != edits[i].0
    ensures Get(ApplyEdits(acc, edits).value.0, edits[i].0) == Cleaned(edits[i].1.value)
    ensures Acceptable(edits[i].0, Cleaned(edits[i].1.value))
    decreases |edits|
  {
    var next := FieldStep(acc, edits[0].0, edits[0].1);
    if next.Err? {
      ApplyEditsErrStays(next, edits[1..]);
      assert false;
    }
    if i == 0 {
      var f := edits[0].0;
      assert !Gives(edits[1..], f) by {
        forall j | 0 <= j < |edits[1..]| ensures edits[1..][j].0 != f {
          assert edits[1..][j] == edits[j + 1];
        }
      }
      ApplyEditsTouchesOnlyGiven(next, edits[1..], f);
    } else {
      forall j | i - 1 < j < |edits[1..]| ensures edits[1..][j].0 != edits[1..][i - 1].0 {
        assert edits[1..][j] == edits[j + 1];
      }
      ApplyEditsStoresCleaned(next, edits[1..], i - 1);
    }
  }

  /**
   * A successful buyer update stores each given field trimmed, with an
   * empty text stored as no value, and leaves a field not given as it was.
   */
  lemma BuyerUpdateStoresGiven(profiles: seq<Profile>, user: User, phone: Option<string>, paymentMethod: Option<string>)
    requires BuyerUpdateOutcome(profiles, user, phone, paymentMethod, None).Ok?
    ensures var p := BuyerUpdateOutcome(profiles, user, phone, paymentMethod, None).value.0;
      var before := FindProfile(profiles, user.id, BuyerProfile).value;
      (phone.Some? ==> p.phone == Cleaned(phone.value)) &&
      (phone.None? ==> p.phone == before.phone) &&
      (paymentMethod.Some? ==> p.paymentMethod == Cleaned(paymentMethod.value)) &&
      (paymentMethod.None? ==> p.paymentMethod == before.paymentMethod)
  {
    var before := FindProfile(profiles, user.id, BuyerProfile).value;
    var edits := BuyerEdits(phone, paymentMethod);
    var acc: Progress := Ok((before, false));
    if phone.Some? {
      ApplyEditsStoresCleaned(acc, edits, 0);
    } else {
      ApplyEditsTouchesOnlyGiven(acc, edits, Phone);
    }
    if paymentMethod.Some? {
      ApplyEditsStoresCleaned(acc, edits, 1);
    } else {
      ApplyEditsTouchesOnlyGiven(acc, edits, PaymentMethod);
    }
  }

  /**
   * A successful buyer update leaves the supplier-only fields, the logo
   * (when none is sent) and the company name alone, and is saved exactly
   * when some field was given.
   */
  lemma BuyerUpdateKeepsRest(profiles: seq<Profile>, user: User, phone: Option<string>, paymentMethod: Option<string>)
    requires BuyerUpdateOutcome(profiles, user, phone, paymentMethod, None).Ok?
    ensures var (p, saved) := BuyerUpdateOutcome(profiles, user, phone, paymentMethod, None).value;
      var before := FindProfile(profiles, user.id, BuyerProfile).value;
      p.website == before.website && p.description == before.description && p.location == before.location &&
      p.returnPolicy == before.returnPolicy && p.logo == before.logo && p.companyName == before.companyName &&
      (saved <==> phone.Some? || paymentMethod.Some?)
  {
    var before := FindProfile(profiles, user.id, BuyerProfile).value;
    var edits := BuyerEdits(phone, paymentMethod);
    var acc: Progress := Ok((before, false));
    assert BuyerUpdateOutcome(profiles, user, phone, paymentMethod, None) == ApplyEdits(acc, edits);
    var p := ApplyEdits(acc, edits).value.0;
    forall f | f != Phone && f != PaymentMethod ensures Get(p, f) == Get(before, f) {
      assert !Gives(edits, f);
      ApplyEditsTouchesOnlyGiven(acc, edits, f);
    }
    assert Get(p, Website) == Get(before, Website) && Get(p, Description) == Get(before, Description);
    assert Get(p, Location) == Get(before, Location) && Get(p, ReturnPolicy) == Get(before, ReturnPolicy);
    ApplyEditsTouchesOnlyGiven(acc, edits, Phone);
    if phone.Some? { assert edits[0].1.Some?; }
    if paymentMethod.Some? { assert edits[1].1.Some?; }
  }

  /** Sending the same update again changes nothing more: the stored fields are already trimmed. */
  lemma CleanedIsStable(v: string)
    ensures Cleaned(v).Some? ==> Cleaned(Cleaned(v).value) == Cleaned(v)
  {
    StripIdempotent(v);
  }

  /** `profile.save()`: the stored row of the same user and kind is replaced. */
  function SaveProfile(profiles: seq<Profile>, p: Profile): (r: seq<Profile>)
    ensures |r| == |profiles|
    ensures forall i :: 0 <= i < |r| ==>
      r[i] == (if profiles[i].user == p.user && profiles[i].kind == p.kind then p else profiles[i])
  {
    seq(|profiles|, i requires 0 <= i < |profiles| =>
      if profiles[i].user == p.user && profiles[i].kind == p.kind then p else profiles[i])
  }

  /** Saving a profile of an existing row keeps the profile tables' constraints, and the row then reads back. */
  lemma SaveProfileKeepsValid(users: seq<User>, profiles: seq<Profile>, p: Profile)
    requires ProfilesValid(users, profiles)
    requires FindProfile(profiles, p.user, p.kind).Some?
    ensures ProfilesValid(users, SaveProfile(profiles, p))
    ensures FindProfile(SaveProfile(profiles, p), p.user, p.kind) == Some(p)
  {
    var r := SaveProfile(profiles, p);
    var q := FindProfile(profiles, p.user, p.kind).value;
    var k :| 0 <= k < |profiles| && profiles[k] == q;
    forall x | x in r ensures FindUser(users, x.user).Some? {
      var i :| 0 <= i < |r| && r[i] == x;
    }
    FindProfileAfterSave(profiles, p);
  }

  lemma {:induction false} FindProfileAfterSave(profiles: seq<Profile>, p: Profile)
    requires FindProfile(profiles, p.user, p.kind).Some?
    ensures FindProfile(SaveProfile(profiles, p), p.user, p.kind) == Some(p)
  {
    var r := SaveProfile(profiles, p);
    if !(profiles[0].user == p.user && profiles[0].kind == p.kind) {
      assert r[1..] == SaveProfile(profiles[1..], p);
      FindProfileAfterSave(profiles[1..], p);
    }
  }

  /** The logo block of the endpoints, run against the image helpers. */
  method ApplyLogo(profile: Profile, logo: Upload) returns (r: Result<Profile, HttpError>)
    ensures LogoOutcome(profile.kind, logo).Err? ==> r == Err(LogoOutcome(profile.kind, logo).error)
    ensures LogoOutcome(profile.kind, logo).Ok? ==> r == Ok(profile.(logo := Some(LogoOutcome(profile.kind, logo).value)))
  {
    var check := ImageUtils.ValidateImageFile(logo.contentType, logo.size, None, ImageUtils.MAX_FILE_SIZE);
    if !check.0 {
      return Err(HttpError(400, check.1.value));
    }
    var webp := ImageUtils.ConvertToWebp(logo.name, logo.decodes, logo.detail, logo.sizeAt,
                                         ImageUtils.MAX_FILE_SIZE, ImageUtils.WEBP_QUALITY);
    if webp.Err? {
      return Err(HttpError(400, webp.error));
    }
    r := Ok(profile.(logo := Some(LogoFolder(profile.kind) + webp.value.name)));
  }

  /** One text field's `if value is not None:` block of the endpoints. */
  method FieldBlock(profile: Profile, updated: bool, f: Field, given: Option<string>) returns (r: Progress)
    ensures r == FieldStep(Ok((profile, updated)), f, given)
  {
    if given.None? {
      return Ok((profile, updated));
    }
    var s := Strip(given.value);
    if Limit(f).Some? && |s| > Limit(f).value {
      return Err(HttpError(400, TooLong(f)));
    }
    r := Ok((Set(profile, f, if s != [] then Some(s) else None), true));
  }

  /** The logo block, after the field blocks. */
  method LogoBlock(acc: Progress, logo: Option<Upload>) returns (r: Progress)
    ensures r == LogoStep(acc, logo)
  {
    if acc.Err? || logo.None? {
      return acc;
    }
    var withLogo := ApplyLogo(acc.value.0, logo.value);
    if withLogo.Err? {
      return Err(withLogo.error);
    }
    r := Ok((withLogo.value, true));
  }

  /** The body of `update_buyer_profile` after the checks: the field blocks in order, then the logo. */
  method EditBuyerProfile(profile: Profile, phone: Option<string>, paymentMethod: Option<string>, logo: Option<Upload>)
    returns (r: Progress)
    ensures r == LogoStep(ApplyEdits(Ok((profile, false)), BuyerEdits(phone, paymentMethod)), logo)
  {
    ghost var edits := BuyerEdits(phone, paymentMethod);
    var acc := FieldBlock(profile, false, Phone, phone);
    assert ApplyEdits(Ok((profile, false)), edits) == ApplyEdits(acc, edits[1..]);
    if acc.Err? {
      ApplyEditsErrStays(acc, edits[1..]);
      return acc;
    }
    ghost var acc1 := acc;
    acc := FieldBlock(acc.value.0, acc.value.1, PaymentMethod, paymentMethod);
    assert edits[1..][1..] == [];
    assert ApplyEdits(acc1, edits[1..]) == ApplyEdits(acc, []) == acc;
    r := LogoBlock(acc, logo);
  }

  /** Running the blocks of `[e] + rest` is running `e`'s block, then the rest. */
  lemma ApplyEditsCons(acc: Progress, e: (Field, Option<string>), rest: seq<(Field, Option<string>)>)
    ensures ApplyEdits(acc, [e] + rest) == ApplyEdits(FieldStep(acc, e.0, e.1), rest)
  {
    assert ([e] + rest)[1..] == rest;
  }

  /** The body of `update_supplier_profile` after the checks. */
  method EditSupplierProfile(profile: Profile, phone: Option<string>, website: Option<string>,
                             description: Option<string>, location: Option<string>, returnPolicy: Option<string>,
                             paymentMethod: Option<string>, logo: Option<Upload>)
    returns (r: Progress)
    ensures r == LogoStep(ApplyEdits(Ok((profile, false)),
                                     SupplierEdits(phone, website, description, location, returnPolicy, paymentMethod)), logo)
  {
    ghost var tail := [(Location, location), (ReturnPolicy, returnPolicy), (PaymentMethod, paymentMethod)];
    ghost var r2 := [(Description, description)] + tail;
    ghost var r1 := [(Website, website)] + r2;
    assert SupplierEdits(phone, website, description, location, returnPolicy, paymentMethod) == [(Phone, phone)] + r1;
    ApplyEditsCons(Ok((profile, false)), (Phone, phone), r1);
    var acc := FieldBlock(profile, false, Phone, phone);
    if acc.Err? {
      ApplyEditsErrStays(acc, r1);
      return acc;
    }
    ApplyEditsCons(acc, (Website, website), r2);
    acc := FieldBlock(acc.value.0, acc.value.1, Website, website);
    if acc.Err? {
      ApplyEditsErrStays(acc, r2);
      return acc;
    }
    ApplyEditsCons(acc, (Description, description), tail);
    acc := FieldBlock(acc.value.0, acc.value.1, Description, description);
    acc := SupplierTermsBlocks(acc, location, returnPolicy, paymentMethod);
    r := LogoBlock(acc, logo);
  }

  /** The location, return-policy and payment-method blocks of `update_supplier_profile`. */
  method SupplierTermsBlocks(acc0: Progress, location: Option<string>, returnPolicy: Option<string>,
                             paymentMethod: Option<string>)
    returns (r: Progress)
    requires acc0.Ok?
    ensures r == ApplyEdits(acc0, [(Location, location), (ReturnPolicy, returnPolicy), (PaymentMethod, paymentMethod)])
  {
    ghost var r2 := [(PaymentMethod, paymentMethod)];
    ghost var r1 := [(ReturnPolicy, returnPolicy)] + r2;
    assert [(Location, location), (ReturnPolicy, returnPolicy), (PaymentMethod, paymentMethod)] == [(Location, location)] + r1;
    ApplyEditsCons(acc0, (Location, location), r1);
    var acc := FieldBlock(acc0.value.0, acc0.value.1, Location, location);
    if acc.Err? {
      ApplyEditsErrStays(acc, r1);
      return acc;
    }
    ApplyEditsCons(acc, (ReturnPolicy, returnPolicy), r2);
    acc := FieldBlock(acc.value.0, acc.value.1, ReturnPolicy, returnPolicy);
    ApplyEditsCons(acc, (PaymentMethod, paymentMethod), []);
    assert r2 == [(PaymentMethod, paymentMethod)] + [];
    r := FieldBlock(acc.value.0, acc.value.1, PaymentMethod, paymentMethod);
  }

  /** `update_buyer_profile`: the checks, the edits, and the save when something was given. */
  method UpdateBuyerProfile(store: UserStore, user: User, phone: Option<string>, paymentMethod: Option<string>,
                            logo: Option<Upload>)
    returns (r: Result<Profile, HttpError>)
    requires store.Valid()
    modifies store
    ensures store.Valid()
    ensures var out := BuyerUpdateOutcome(old(store.profiles), user, phone, paymentMethod, logo);
      (r.Ok? <==> out.Ok?) && (r.Ok? ==> r.value == out.value.0) && (r.Err? ==> r.error == out.error)
    ensures var out := BuyerUpdateOutcome(old(store.profiles), user, phone, paymentMethod, logo);
      store.profiles == (if out.Ok? && out.value.1 then SaveProfile(old(store.profiles), out.value.0) else old(store.profiles))
    ensures store.users == old(store.users) && store.nextId == old(store.nextId)
  {
    ghost var out := BuyerUpdateOutcome(store.profiles, user, phone, paymentMethod, logo);
    var own := OwnProfile(store.profiles, user, BuyerProfile, "Only buyers can update buyer profile", "Buyer profile not found");
    if own.Err? {
      assert out == Err(own.error);
      return Err(own.error);
    }
    assert out == LogoStep(ApplyEdits(Ok((own.value, false)), BuyerEdits(phone, paymentMethod)), logo);
    var edited := EditBuyerProfile(own.value, phone, paymentMethod, logo);
    r := SaveEdited(store, own.value, BuyerEdits(phone, paymentMethod), logo, edited);
  }

  /** `update_supplier_profile`: the checks, the edits, and the save when something was given. */
  method UpdateSupplierProfile(store: UserStore, user: User, phone: Option<string>, website: Option<string>,
                               description: Option<string>, location: Option<string>, returnPolicy: Option<string>,
                               paymentMethod: Option<string>, logo: Option<Upload>)
    returns (r: Result<Profile, HttpError>)
    requires store.Valid()
    modifies store
    ensures store.Valid()
    ensures var out := SupplierUpdateOutcome(old(store.profiles), user, phone, website, description, location,
                                             returnPolicy, paymentMethod, logo);
      (r.Ok? <==> out.Ok?) && (r.Ok? ==> r.value == out.value.0) && (r.Err? ==> r.error == out.error)
    ensures var out := SupplierUpdateOutcome(old(store.profiles), user, phone, website, description, location,
                                             returnPolicy, paymentMethod, logo);
      store.profiles == (if out.Ok? && out.value.1 then SaveProfile(old(store.profiles), out.value.0) else old(store.profiles))
    ensures store.users == old(store.users) && store.nextId == old(store.nextId)
  {
    ghost var edits := SupplierEdits(phone, website, description, location, returnPolicy, paymentMethod);
    ghost var out := SupplierUpdateOutcome(store.profiles, user, phone, website, description, location,
                                           returnPolicy, paymentMethod, logo);
    var own := OwnProfile(store.profiles, user, SupplierProfile, "Only suppliers can update supplier profile",
                          "Supplier profile not found");
    if own.Err? {
      assert out == Err(own.error);
      return Err(own.error);
    }
    assert out == LogoStep(ApplyEdits(Ok((own.value, false)), edits), logo);
    var edited := EditSupplierProfile(own.value, phone, website, description, location, returnPolicy, paymentMethod, logo);
    r := SaveEdited(store, own.value, edits, logo, edited);
  }

  /** The tail of both updates: a failed edit is returned, an edit that gave something is saved. */
  method SaveEdited(store: UserStore, own: Profile, ghost edits: seq<(Field, Option<string>)>, ghost logo: Option<Upload>,
                    edited: Progress)
    returns (r: Result<Profile, HttpError>)
    requires store.Valid()
    requires FindProfile(store.profiles, own.user, own.kind) == Some(own)
    requires edited == LogoStep(ApplyEdits(Ok((own, false)), edits), logo)
    modifies store
    ensures store.Valid()
    ensures (r.Ok? <==> edited.Ok?) && (r.Ok? ==> r.value == edited.value.0) && (r.Err? ==> r.error == edited.error)
    ensures store.profiles == (if edited.Ok? && edited.value.1 then SaveProfile(old(store.profiles), edited.value.0)
                               else old(store.profiles))
    ensures store.users == old(store.users) && store.nextId == old(store.nextId)
  {
    if edited.Err? {
      return Err(edited.error);
    }
    var (profile, updated) := edited.value;
    if updated {
      EditKeepsIdentity(own, edits, logo);
      SaveProfileKeepsValid(store.users, store.profiles, profile);
      store.profiles := SaveProfile(store.profiles, profile);
    }
    r := Ok(profile);
  }

  /** An edited profile still belongs to the same user and is of the same kind. */
  lemma EditKeepsIdentity(p: Profile, edits: seq<(Field, Option<string>)>, logo: Option<Upload>)
    requires LogoStep(ApplyEdits(Ok((p, false)), edits), logo).Ok?
    ensures var q := LogoStep(ApplyEdits(Ok((p, false)), edits), logo).value.0;
      q.user == p.user && q.kind == p.kind && q.companyName == p.companyName
  {
    ApplyEditsTouchesOnlyGiven(Ok((p, false)), edits, Phone);
  }
}
