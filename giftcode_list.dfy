/** The public giftcode list: when a code counts as expired, the card it
    gets (badge, copy button), and the "copied" marker. */
module GiftcodeList {

  import opened Wrappers

  datatype Status = Active | Expired

  datatype Giftcode = Giftcode(code: string, description: string, rewards: seq<string>, expiresAt: string, status: Status)

  /** `status === "expired" || new Date(expiresAt) < new Date()`, given the
      parsed expiry date in milliseconds (`None` for an invalid date, which
      compares false) and the clock `now`. */
  predicate IsExpired(g: Giftcode, expiry: Option<int>, now: int)
  {
    g.status == Expired || (expiry.Some? && expiry.value < now)
  }

  const ExpiredBadge := "Hết hạn"
  const ValidBadge := "Còn hiệu lực"

  /** What one card shows. */
  datatype Card = Card(code: string, expired: bool, badge: string, copyEnabled: bool, showsCopied: bool)

  function CardOf(g: Giftcode, expiry: Option<int>, now: int, copiedCode: Option<string>): Card
  {
    var expired := IsExpired(g, expiry, now);
    Card(g.code, expired, if expired then ExpiredBadge else ValidBadge, !expired, copiedCode == Some(g.code))
  }

  /** `giftcodes.map(...)`; `parse` stands for `new Date(s).getTime()`. */
  function Cards(giftcodes: seq<Giftcode>, parse: string -> Option<int>, now: int, copiedCode: Option<string>): seq<Card>
  {
    seq(|giftcodes|, i requires 0 <= i < |giftcodes| => CardOf(giftcodes[i], parse(giftcodes[i].expiresAt), now, copiedCode))
  }

  /** One card per code, in order; a card is expired exactly when its status
      says so or its date has passed, an active code past its date included;
      the badge reads "Hết hạn" exactly when expired, the copy button is
      enabled exactly when not, and "Đã sao chép" is shown exactly on the
      cards whose code was copied. */
  lemma CardsSpec(giftcodes: seq<Giftcode>, parse: string -> Option<int>, now: int, copiedCode: Option<string>)
    ensures var cards := Cards(giftcodes, parse, now, copiedCode);
      && |cards| == |giftcodes|
      && forall i :: 0 <= i < |giftcodes| ==>
        var g, c, d := giftcodes[i], cards[i], parse(giftcodes[i].expiresAt);
        && c.code == g.code
        && (c.expired <==> g.status == Expired || (d.Some? && d.value < now))
        && (c.badge == ExpiredBadge <==> c.expired)
        && (c.copyEnabled <==> !c.expired)
        && (c.showsCopied <==> copiedCode == Some(g.code))
  {
    assert ExpiredBadge[0] != ValidBadge[0];
  }

  /** An active code whose date has passed is shown as expired; a date that
      does not parse never expires an active code. */
  lemma ActiveButPast(g: Giftcode, expiry: Option<int>, now: int)
    requires g.status == Active
    ensures expiry.Some? && expiry.value < now ==> IsExpired(g, expiry, now)
    ensures expiry.None? ==> !IsExpired(g, expiry, now)
  {
  }

  class GiftcodeListState {
    var copiedCode: Option<string>

    constructor ()
      ensures copiedCode == None
    {
      copiedCode := None;
    }

    /** `handleCopy(code)` once the clipboard write has finished; the
        timer's reset is `ResetCopied`. */
    method HandleCopy(code: string)
      modifies this`copiedCode
      ensures copiedCode == Some(code)
    {
      copiedCode := Some(code);
    }

    /** The reset two seconds after a copy. */
    method ResetCopied()
      modifies this`copiedCode
      ensures copiedCode == None
    {
      copiedCode := None;
    }
  }

  /** After copying a code, with distinct codes only that code's card shows
      "Đã sao chép"; after the reset none does. */
  lemma OnlyCopiedCardMarked(giftcodes: seq<Giftcode>, parse: string -> Option<int>, now: int, k: nat)
    requires k < |giftcodes|
    requires forall i, j :: 0 <= i < j < |giftcodes| ==> giftcodes[i].code != giftcodes[j].code
    ensures var cards := Cards(giftcodes, parse, now, Some(giftcodes[k].code));
      forall i :: 0 <= i < |cards| ==> (cards[i].showsCopied <==> i == k)
    ensures var cards := Cards(giftcodes, parse, now, None);
      forall i :: 0 <= i < |cards| ==> !cards[i].showsCopied
  {
    CardsSpec(giftcodes, parse, now, Some(giftcodes[k].code));
    CardsSpec(giftcodes, parse, now, None);
  }
}
