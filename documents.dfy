/** The documents of the five collections of the `bistroDb` database and their `_id` keys. */
module Documents {
  import opened Wrappers

  /** The `_id` of a stored document: a BSON ObjectId, kept as its canonical
      lower-case 24-digit hexadecimal spelling, or a plain string id (documents
      imported with string ids). The two kinds never compare equal. */
  datatype Key = ObjectId(hex: string) | Text(s: string)

  /** An `email` field or claim that may be absent; an absent one is sent to the
      store as `null` and matches documents that have no email. */
  type Email = Option<string>

  predicate IsHexDigit(c: char) {
    '0' <= c <= '9' || 'a' <= c <= 'f' || 'A' <= c <= 'F'
  }

  /** What `new ObjectId(s)` accepts for a string: exactly 24 hexadecimal digits. */
  predicate IsObjectIdString(s: string) {
    |s| == 24 && forall i :: 0 <= i < |s| ==> IsHexDigit(s[i])
  }

  /** An ObjectId key in its canonical spelling. */
  predicate IsCanonical(k: Key) {
    k.ObjectId? && |k.hex| == 24 &&
    forall i :: 0 <= i < |k.hex| ==> '0' <= k.hex[i] <= '9' || 'a' <= k.hex[i] <= 'f'
  }

  function LowerChar(c: char): char {
    if 'A' <= c <= 'F' then (c as int + 32) as char else c
  }

  function Lower(s: string): (r: string)
    ensures |r| == |s|
    ensures forall i :: 0 <= i < |s| ==> r[i] == LowerChar(s[i])
  {
    seq(|s|, i requires 0 <= i < |s| => LowerChar(s[i]))
  }

  /** `new ObjectId(s)`: a canonical ObjectId key for a 24-digit hex string, and
      `None` where the constructor throws. */
  function ParseObjectId(s: string): (r: Option<Key>)
    ensures r.Some? <==> IsObjectIdString(s)
    ensures r.Some? ==> IsCanonical(r.value)
    ensures r.Some? ==> forall i :: 0 <= i < 24 ==> LowerChar(s[i]) == r.value.hex[i]
  {
    if IsObjectIdString(s) then Some(ObjectId(Lower(s))) else None
  }

  /** Printing a stored ObjectId and parsing it back yields the same key. */
  lemma ParseCanonical(k: Key)
    requires IsCanonical(k)
    ensures ParseObjectId(k.hex) == Some(k)
  {
    assert Lower(k.hex) == k.hex;
  }

  /** Two spellings of an id that differ only in the case of hex letters name the same document. */
  lemma ParseIgnoresCase(s: string, t: string)
    requires |s| == |t|
    requires forall i :: 0 <= i < |s| ==> LowerChar(s[i]) == LowerChar(t[i])
    ensures ParseObjectId(s) == ParseObjectId(t)
  {
    forall i | 0 <= i < |s| ensures IsHexDigit(s[i]) == IsHexDigit(t[i]) {
      assert LowerChar(s[i]) == LowerChar(t[i]);
    }
    assert IsObjectIdString(s) == IsObjectIdString(t);
    if IsObjectIdString(s) {
      assert Lower(s) == Lower(t);
    }
  }

  const AdminRole: string := "admin"

  /** A document of `users`: the registered email, a display name and an optional role. */
  datatype User = User(email: Email, name: string, role: Option<string>)

  /** A document of `menu`; `extra` stands for any further fields the document carries. */
  datatype MenuItem = MenuItem(
    name: string, category: string, price: real, recipe: string, image: string,
    extra: map<string, string>)

  /** The five fields a menu PATCH body supplies. */
  datatype MenuPatch = MenuPatch(name: string, category: string, price: real, recipe: string, image: string)

  /** A document of `reviews` (read-only through the API). */
  datatype Review = Review(name: string, details: string, rating: int)

  /** A document of `carts`: the owner's email, the menu item it refers to and its snapshot. */
  datatype Cart = Cart(email: Email, menuId: string, name: string, price: real)

  /** A document of `payments`, as the client posts it: `cartIds` and `menuItemIds` are strings. */
  datatype Payment = Payment(
    email: Email, price: real, transactionId: string,
    cartIds: seq<string>, menuItemIds: seq<string>, status: string)

  /** Every `ObjectId` key is stored in its canonical form: a JSON body cannot carry an
      `ObjectId`, so the only ones in a collection are those the driver generates. */
  ghost predicate WellKeyed<V>(m: map<Key, V>) {
    forall k :: k in m && k.ObjectId? ==> IsCanonical(k)
  }

  /** At most one user per email. */
  ghost predicate UniqueEmails(users: map<Key, User>) {
    forall k1, k2 :: k1 in users && k2 in users && users[k1].email == users[k2].email ==> k1 == k2
  }

  /** The emails the users collection holds; an absent email counts as `null`. */
  function Emails(users: map<Key, User>): set<Email> {
    set k | k in users :: users[k].email
  }

  /** `findOne({email})` finds a user: the email is one of the collection's emails. */
  predicate EmailTaken(users: map<Key, User>, email: Email): (taken: bool)
    ensures taken <==> email in Emails(users)
    ensures taken ==> |users| > 0
  {
    exists k | k in users :: users[k].email == email
  }
}
