/**
 * CreateBusinessScreen of screens/CreateBusinessScreen.tsx: the form's `validate`, the slug
 * derived from the name, the logo picked from the library and its defaults, and
 * `handleCreate`. `createBusiness` is not defined in services/authService.ts; its outcome
 * is a parameter.
 */
module CreateBusinessScreen {
  import opened Wrappers
  import opened Http
  import opened Text
  import opened ImagePicker

  datatype BusinessForm = BusinessForm(name: string, businessType: string, phone: string, currency: string)

  /** What `createBusiness` is called with; the form's phone is not part of it. */
  datatype BusinessPayload = BusinessPayload(
    shopkeeperId: string,
    name: string,
    slug: string,
    businessTypeId: string,
    currency: string,
    email: string,
    logo: FileData)

  /** `/^\+?[0-9]{7,15}$/`: an optional `+` and then 7 to 15 digits, nothing else. */
  predicate BusinessPhonePattern(p: string) {
    var digits := if |p| > 0 && p[0] == '+' then p[1..] else p;
    7 <= |digits| <= 15 && AllDigits(digits)
  }

  /** A phone of blanks is non-empty and has no digit, so the pattern rejects it. */
  lemma BlankPhoneIsInvalid(p: string)
    requires p != "" && Blank(p)
    ensures !BusinessPhonePattern(p)
  {
    assert IsSpace(p[0]) && p[0] != '+' && !IsDigit(p[0]);
  }

  /** A form `validate` accepts: name, type and currency not blank, the phone given and well formed. */
  predicate ValidBusinessForm(f: BusinessForm) {
    && !Blank(f.name) && !Blank(f.businessType) && !Blank(f.currency)
    && !Blank(f.phone) && BusinessPhonePattern(f.phone)
  }

  /**
   * The errors `validate` ends with: one per blank field, and for the phone the later
   * "Invalid phone number" overriding "Phone number is required" when the phone is non-empty.
   */
  function ValidationErrors(f: BusinessForm): (m: map<string, string>)
    ensures m.Keys <= {"name", "type", "phone", "currency"}
    ensures "name" in m <==> Blank(f.name)
    ensures "type" in m <==> Blank(f.businessType)
    ensures "currency" in m <==> Blank(f.currency)
    ensures "phone" in m <==> Blank(f.phone) || !BusinessPhonePattern(f.phone)
    ensures "name" in m ==> m["name"] == "Business name is required"
    ensures "type" in m ==> m["type"] == "Business type is required"
    ensures "currency" in m ==> m["currency"] == "Currency is required"
    ensures "phone" in m ==>
      m["phone"] == if f.phone != "" then "Invalid phone number" else "Phone number is required"
    ensures m == map[] <==> ValidBusinessForm(f)
  {
    if Blank(f.phone) && f.phone != "" then
      BlankPhoneIsInvalid(f.phone);
      ErrorsOf(f)
    else ErrorsOf(f)
  }

  /** The successive assignments of `validate`, as one expression. */
  function ErrorsOf(f: BusinessForm): map<string, string> {
    var m1 := if Blank(f.name) then map["name" := "Business name is required"] else map[];
    var m2 := if Blank(f.businessType) then m1["type" := "Business type is required"] else m1;
    var m3 := if Blank(f.phone) then m2["phone" := "Phone number is required"] else m2;
    var m4 := if f.phone != "" && !BusinessPhonePattern(f.phone) then m3["phone" := "Invalid phone number"] else m3;
    if Blank(f.currency) then m4["currency" := "Currency is required"] else m4
  }

  /** `validate`'s `next` object, built by successive assignments; the phone key can be set twice. */
  method CollectErrors(f: BusinessForm) returns (next: map<string, string>)
    ensures next == ValidationErrors(f)
    ensures next == map[] <==> ValidBusinessForm(f)
  {
    next := map[];
    if Blank(f.name) {
      next := next["name" := "Business name is required"];
    }
    if Blank(f.businessType) {
      next := next["type" := "Business type is required"];
    }
    if Blank(f.phone) {
      next := next["phone" := "Phone number is required"];
    }
    if f.phone != "" && !BusinessPhonePattern(f.phone) {
      next := next["phone" := "Invalid phone number"];
    }
    if Blank(f.currency) {
      next := next["currency" := "Currency is required"];
    }
  }

  // ---------------------------------------------------------------------------
  // The slug
  // ---------------------------------------------------------------------------

  /** `s` without its leading run of whitespace. */
  function DropSpaces(s: string): (r: string)
    ensures |r| <= |s| && (r == [] || !IsSpace(r[0]))
    ensures r == s[|s| - |r|..]
  {
    if s != [] && IsSpace(s[0]) then DropSpaces(s[1..]) else s
  }

  /** `name.toLowerCase().replace(/\s+/g, '-')`: lower-case it, each whitespace run becomes one `-`. */
  function Slug(name: string): (r: string)
    ensures |r| <= |name|
    ensures forall i :: 0 <= i < |r| ==> !IsSpace(r[i]) && !('A' <= r[i] <= 'Z')
    decreases |name|
  {
    if name == [] then []
    else if IsSpace(name[0]) then "-" + Slug(DropSpaces(name))
    else [Lower(name[0])] + Slug(name[1..])
  }

  /** On a string with no whitespace and no upper-case letter the slug changes nothing. */
  lemma {:induction false} SlugOfSlugLike(s: string)
    requires forall i :: 0 <= i < |s| ==> !IsSpace(s[i]) && !('A' <= s[i] <= 'Z')
    ensures Slug(s) == s
    decreases |s|
  {
    if s != [] {
      SlugOfSlugLike(s[1..]);
    }
  }

  /** Making a slug of a slug changes nothing. */
  lemma SlugIdempotent(name: string)
    ensures Slug(Slug(name)) == Slug(name)
  {
    SlugOfSlugLike(Slug(name));
  }

  /** There is no trimming: a name that starts with whitespace gives a slug that starts with `-`. */
  lemma SlugLeadingDash(name: string)
    requires name != [] && IsSpace(name[0])
    ensures Slug(name) != [] && Slug(name)[0] == '-'
  {
  }

  /** Likewise at the end: a name that ends with whitespace gives a slug that ends with `-`. */
  lemma {:induction false} SlugTrailingDash(name: string)
    requires name != [] && IsSpace(name[|name| - 1])
    ensures Slug(name) != [] && Slug(name)[|Slug(name)| - 1] == '-'
    decreases |name|
  {
    var s := Slug(name);
    if IsSpace(name[0]) {
      var rest := DropSpaces(name);
      if rest != [] {
        SlugTrailingDashOfRest(name, rest);
      }
    } else {
      var t := Slug(name[1..]);
      SlugTrailingDash(name[1..]);
      assert s == [Lower(name[0])] + t;
    }
  }

  /** The step of `SlugTrailingDash` for a name that starts with whitespace. */
  lemma {:induction false} SlugTrailingDashOfRest(name: string, rest: string)
    requires name != [] && IsSpace(name[0]) && IsSpace(name[|name| - 1])
    requires rest == DropSpaces(name) && rest != []
    ensures Slug(name) != [] && Slug(name)[|Slug(name)| - 1] == '-'
    decreases |name|, 0
  {
    assert rest[|rest| - 1] == name[|name| - 1];
    SlugTrailingDash(rest);
    var t := Slug(rest);
    assert Slug(name) == "-" + t;
  }

  /** A string that does not end in whitespace keeps its last character after `DropSpaces`. */
  lemma {:induction false} DropSpacesKeepsLast(s: string)
    requires s != [] && !IsSpace(s[|s| - 1])
    ensures DropSpaces(s) != [] && !IsSpace(DropSpaces(s)[|DropSpaces(s)| - 1])
    decreases |s|
  {
    if IsSpace(s[0]) {
      DropSpacesKeepsLast(s[1..]);
    }
  }

  /** Once a non-whitespace character is reached, what follows is kept as it is. */
  lemma {:induction false} DropSpacesAppend(a: string, t: string)
    requires DropSpaces(a) != []
    ensures DropSpaces(a + t) == DropSpaces(a) + t
    decreases |a|
  {
    if IsSpace(a[0]) {
      assert (a + t)[1..] == a[1..] + t;
      DropSpacesAppend(a[1..], t);
    }
  }

  /** A whitespace run followed by a string that does not start with whitespace is dropped whole. */
  lemma {:induction false} DropSpacesRun(ws: string, b: string)
    requires forall i :: 0 <= i < |ws| ==> IsSpace(ws[i])
    requires b == [] || !IsSpace(b[0])
    ensures DropSpaces(ws + b) == b
    decreases |ws|
  {
    if ws == [] {
      assert ws + b == b;
    } else {
      assert (ws + b)[1..] == ws[1..] + b;
      DropSpacesRun(ws[1..], b);
    }
  }

  /** A word (no whitespace) is lower-cased character by character. */
  lemma {:induction false} SlugOfWord(s: string)
    requires forall i :: 0 <= i < |s| ==> !IsSpace(s[i])
    ensures Slug(s) == seq(|s|, i requires 0 <= i < |s| => Lower(s[i]))
    decreases |s|
  {
    if s != [] {
      SlugOfWord(s[1..]);
      var lowered := seq(|s|, i requires 0 <= i < |s| => Lower(s[i]));
      assert lowered == [Lower(s[0])] + seq(|s| - 1, i requires 0 <= i < |s| - 1 => Lower(s[1..][i]));
    }
  }

  /** A name that starts with whitespace: one `-`, then the slug of the rest after the run. */
  lemma SlugOfLeadingRun(name: string)
    requires name != [] && IsSpace(name[0])
    ensures Slug(name) == "-" + Slug(DropSpaces(name))
  {
  }

  /** A name that starts with another character: that character lower-cased, then the rest. */
  lemma SlugOfLeadingChar(name: string)
    requires name != [] && !IsSpace(name[0])
    ensures Slug(name) == [Lower(name[0])] + Slug(name[1..])
  {
  }

  /** A whitespace run between two parts: the slugs of the parts joined by one `-`. */
  predicate SplitsAtRun(a: string, ws: string, b: string) {
    Slug(a + ws + b) == Slug(a) + "-" + Slug(b)
  }

  /** `a + ws + b` with `ws` a non-empty whitespace run between two non-whitespace ends. */
  predicate RunBetween(a: string, ws: string, b: string) {
    && ws != [] && (forall i :: 0 <= i < |ws| ==> IsSpace(ws[i]))
    && (a == [] || !IsSpace(a[|a| - 1]))
    && (b == [] || !IsSpace(b[0]))
  }

  /** The run at the very start: one `-`, then the slug of what follows it. */
  lemma SlugSplitAtStart(ws: string, b: string)
    requires RunBetween([], ws, b)
    ensures SplitsAtRun([], ws, b)
  {
    assert [] + ws + b == ws + b;
    DropSpacesRun(ws, b);
    SlugOfLeadingRun(ws + b);
  }

  /**
   * A maximal whitespace run between two parts becomes one `-` between their slugs, so a name
   * is slugged as its words lower-cased and joined by one `-` per run.
   */
  lemma {:induction false} SlugSplit(a: string, ws: string, b: string)
    requires RunBetween(a, ws, b)
    ensures SplitsAtRun(a, ws, b)
    decreases |a|
  {
    if a == [] {
      SlugSplitAtStart(ws, b);
    } else if IsSpace(a[0]) {
      SlugSplitAfterRun(a, ws, b);
    } else {
      SlugSplitAfterChar(a, ws, b);
    }
  }

  /** The step of `SlugSplit` for an `a` that starts with whitespace. */
  lemma {:induction false} SlugSplitAfterRun(a: string, ws: string, b: string)
    requires RunBetween(a, ws, b) && a != [] && IsSpace(a[0])
    ensures SplitsAtRun(a, ws, b)
    decreases |a|, 0
  {
    var rest := DropSpaces(a);
    var sr, sb := Slug(rest), Slug(b);
    assert Slug(a + (ws + b)) == "-" + (sr + "-" + sb) by {
      DropSpacesKeepsLast(a);
      DropSpacesAppend(a, ws + b);
      SlugSplit(rest, ws, b);
      assert rest + (ws + b) == rest + ws + b;
      SlugOfLeadingRun(a + (ws + b));
    }
    assert Slug(a) == "-" + sr by {
      SlugOfLeadingRun(a);
    }
    JoinAssoc(a, ws, b, sr, sb);
  }

  /** The bookkeeping of `SlugSplitAfterRun`: regrouping the concatenations. */
  lemma JoinAssoc(a: string, ws: string, b: string, sr: string, sb: string)
    requires Slug(a + (ws + b)) == "-" + (sr + "-" + sb)
    requires Slug(a) == "-" + sr
    ensures Slug(a + ws + b) == Slug(a) + "-" + sb
  {
    assert a + ws + b == a + (ws + b);
  }

  /** The step of `SlugSplit` for an `a` that starts with another character. */
  lemma {:induction false} SlugSplitAfterChar(a: string, ws: string, b: string)
    requires RunBetween(a, ws, b) && a != [] && !IsSpace(a[0])
    ensures SplitsAtRun(a, ws, b)
    decreases |a|, 0
  {
    assert RunBetween(a[1..], ws, b);
    SlugSplit(a[1..], ws, b);
    SlugSplitCons(a, ws, b);
  }

  /** The bookkeeping of `SlugSplitAfterChar`: a leading character goes in front of both sides. */
  lemma SlugSplitCons(a: string, ws: string, b: string)
    requires a != [] && !IsSpace(a[0])
    requires SplitsAtRun(a[1..], ws, b)
    ensures SplitsAtRun(a, ws, b)
  {
    var whole := a + ws + b;
    var c, sr, sb := Lower(a[0]), Slug(a[1..]), Slug(b);
    assert Slug(whole) == [c] + (sr + "-" + sb) by {
      assert whole[0] == a[0] && whole[1..] == a[1..] + ws + b;
      SlugOfLeadingChar(whole);
    }
    assert Slug(a) == [c] + sr by {
      SlugOfLeadingChar(a);
    }
    assert [c] + (sr + "-" + sb) == [c] + sr + "-" + sb;
  }

  // ---------------------------------------------------------------------------
  // The logo
  // ---------------------------------------------------------------------------

  /** The logo state: `logoUri` (null until picked), `logoName` and `logoType` (empty until picked). */
  datatype Logo = Logo(uri: Option<string>, name: string, mime: string)

  const NoLogo := Logo(None, "", "")

  /** The `logo` part of the payload: `uri || ''`, `name || 'logo.jpg'`, `type || 'image/jpeg'`. */
  function LogoFile(l: Logo): (f: FileData)
    ensures f.uri == OrDefault(l.uri, "")
    ensures f.name == OrDefault(Some(l.name), "logo.jpg") && f.name != ""
    ensures f.mime == OrDefault(Some(l.mime), "image/jpeg") && f.mime != ""
  {
    FileData(if Truthy(l.uri) then l.uri.value else "",
             if l.name != "" then l.name else "logo.jpg",
             if l.mime != "" then l.mime else "image/jpeg")
  }

  /** `pickLogo`'s callback: only a first asset with a uri replaces the logo. */
  function PickedLogo(current: Logo, r: PickerResponse): (l: Logo)
    ensures l != current ==> !r.didCancel && !Truthy(r.errorCode) && HasAsset(r) && Truthy(r.assets.value[0].uri)
    ensures !r.didCancel && !Truthy(r.errorCode) && HasAsset(r) && Truthy(r.assets.value[0].uri) ==>
      var a := r.assets.value[0];
      l == Logo(a.uri, OrDefault(a.fileName, "logo.jpg"), OrDefault(a.mime, "image/jpeg"))
  {
    if r.didCancel || Truthy(r.errorCode) || !HasAsset(r) then current
    else
      var asset := r.assets.value[0];
      if Truthy(asset.uri) then
        Logo(asset.uri, if Truthy(asset.fileName) then asset.fileName.value else "logo.jpg",
             if Truthy(asset.mime) then asset.mime.value else "image/jpeg")
      else current
  }

  /**
   * The payload `handleCreate` sends. Its slug is URL-safe (no whitespace, no capital) and
   * already its own slug, and its logo always has a name and a type, picked or not.
   */
  function CreatePayload(shopkeeperId: string, email: string, f: BusinessForm, l: Logo): (p: BusinessPayload)
    ensures p.slug == Slug(f.name) && p.name == f.name && p.businessTypeId == f.businessType
    ensures p.currency == f.currency && p.logo == LogoFile(l)
    ensures p.shopkeeperId == shopkeeperId && p.email == email
    ensures forall i :: 0 <= i < |p.slug| ==> !IsSpace(p.slug[i]) && !('A' <= p.slug[i] <= 'Z')
    ensures Slug(p.slug) == p.slug
    ensures p.logo.name != "" && p.logo.mime != ""
  {
    SlugIdempotent(f.name);
    BusinessPayload(shopkeeperId, f.name, Slug(f.name), f.businessType, f.currency, email, LogoFile(l))
  }

  class CreateBusinessState {
    const shopkeeperId: string
    const email: string
    var logo: Logo
    var errors: map<string, string>
    /** Every payload `createBusiness` was called with. */
    var created: seq<BusinessPayload>
    /** Set when the screen navigated to the OTP screen. */
    var navigatedToOtp: bool

    constructor (shopkeeperId: string, email: string)
      ensures this.shopkeeperId == shopkeeperId && this.email == email
      ensures logo == NoLogo && errors == map[] && created == [] && !navigatedToOtp
    {
      this.shopkeeperId := shopkeeperId;
      this.email := email;
      logo := NoLogo;
      errors := map[];
      created := [];
      navigatedToOtp := false;
    }

    method PickLogo(r: PickerResponse)
      modifies this
      ensures logo == PickedLogo(old(logo), r)
      ensures errors == old(errors) && created == old(created) && navigatedToOtp == old(navigatedToOtp)
    {
      if r.didCancel {
      } else if Truthy(r.errorCode) {
      } else if HasAsset(r) {
        var asset := r.assets.value[0];
        if Truthy(asset.uri) {
          logo := Logo(asset.uri, OrDefault(asset.fileName, "logo.jpg"), OrDefault(asset.mime, "image/jpeg"));
        }
      }
    }

    /** `handleCreate`, given how the remote `createBusiness` settles. */
    method HandleCreate(f: BusinessForm, outcome: Result<Envelope, Error>) returns (valid: bool)
      modifies this
      ensures errors == ValidationErrors(f)
      ensures valid <==> ValidBusinessForm(f)
      ensures !valid ==> created == old(created) && navigatedToOtp == old(navigatedToOtp)
      ensures valid ==> created == old(created) + [CreatePayload(shopkeeperId, email, f, logo)]
      ensures valid ==> navigatedToOtp == (outcome.Success? || old(navigatedToOtp))
      ensures logo == old(logo)
    {
      var next := CollectErrors(f);
      errors := next;
      valid := next == map[];
      if !valid {
        return;
      }
      created := created + [BusinessPayload(shopkeeperId, f.name, Slug(f.name), f.businessType, f.currency, email, LogoFile(logo))];
      if outcome.Success? {
        navigatedToOtp := true;
      }
    }
  }
}
