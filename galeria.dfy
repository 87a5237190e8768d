/** The before-and-after gallery: the room filter, the phone mask of the share dialog and the WhatsApp
    link it opens. */
module Galeria {
  import opened Seqs
  import opened Text

  datatype GalleryItem = GalleryItem(id: string, project: string, room: string, beforeImage: string,
                                     afterImage: string, description: string)

  function Min(a: int, b: int): int
  {
    if a <= b then a else b
  }

  /** value.replace(/\D/g, ''): the ASCII digits, in order. */
  function Digits(s: string): (r: string)
    ensures |r| <= |s| && forall i :: 0 <= i < |r| ==> IsDigit(r[i])
    ensures forall c :: c in r <==> c in s && IsDigit(c)
  {
    var r := Filter(s, IsDigit);
    assert forall i :: 0 <= i < |r| ==> r[i] in r;
    r
  }

  /** formatPhoneMask: a Brazilian phone as (DD) NNNNN-NNNN, built only from the first 11 digits. */
  function FormatPhoneMask(value: string): (r: string)
    ensures var d := Digits(value);
            && (|d| == 0 ==> r == "")
            && (1 <= |d| <= 2 ==> r == "(" + d)
            && (3 <= |d| <= 7 ==> r == "(" + d[..2] + ") " + d[2..])
            && (8 <= |d| <= 11 ==> r == "(" + d[..2] + ") " + d[2..7] + "-" + d[7..])
            && (|d| > 11 ==> r == "(" + d[..2] + ") " + d[2..7] + "-" + d[7..11])
  {
    var d := Digits(value);
    if |d| <= 2 then (if |d| > 0 then "(" + d else "")
    else if |d| <= 7 then "(" + d[..2] + ") " + d[2..]
    else if |d| <= 11 then "(" + d[..2] + ") " + d[2..7] + "-" + d[7..]
    else "(" + d[..2] + ") " + d[2..7] + "-" + d[7..11]
  }

  lemma DigitsConcat(a: string, b: string)
    ensures Digits(a + b) == Digits(a) + Digits(b)
  {
    FilterConcat(a, b, IsDigit);
  }

  lemma DigitsOfDigits(d: string)
    requires forall i :: 0 <= i < |d| ==> IsDigit(d[i])
    ensures Digits(d) == d
  {
    FilterAll(d, IsDigit);
  }

  predicate AllDigits(d: string)
  {
    forall i :: 0 <= i < |d| ==> IsDigit(d[i])
  }

  lemma DigitsOpen(a: string)
    requires AllDigits(a)
    ensures Digits("(" + a) == a
  {
    DigitsConcat("(", a);
    DigitsOfDigits(a);
  }

  lemma DigitsArea(a: string, b: string)
    requires AllDigits(a) && AllDigits(b)
    ensures Digits("(" + a + ") " + b) == a + b
  {
    DigitsOpen(a);
    DigitsConcat("(" + a, ") ");
    DigitsConcat("(" + a + ") ", b);
    DigitsOfDigits(b);
  }

  lemma DigitsFull(a: string, b: string, c: string)
    requires AllDigits(a) && AllDigits(b) && AllDigits(c)
    ensures Digits("(" + a + ") " + b + "-" + c) == a + b + c
  {
    DigitsArea(a, b);
    DigitsConcat("(" + a + ") " + b, "-");
    DigitsConcat("(" + a + ") " + b + "-", c);
    DigitsOfDigits(c);
  }

  /** The mask shows exactly the first min(n, 11) digits of its input, in order, and no others. */
  lemma MaskDigits(value: string)
    ensures Digits(FormatPhoneMask(value)) == Digits(value)[..Min(|Digits(value)|, 11)]
  {
    var d := Digits(value);
    if |d| == 0 {
    } else if |d| <= 2 {
      DigitsOpen(d);
    } else if |d| <= 7 {
      DigitsArea(d[..2], d[2..]);
      assert d[..2] + d[2..] == d;
    } else if |d| <= 11 {
      DigitsFull(d[..2], d[2..7], d[7..]);
      assert d[..2] + d[2..7] + d[7..] == d;
    } else {
      DigitsFull(d[..2], d[2..7], d[7..11]);
      assert d[..2] + d[2..7] + d[7..11] == d[..11];
    }
  }

  /** Formatting an already formatted phone changes nothing. */
  lemma MaskIdempotent(value: string)
    ensures FormatPhoneMask(FormatPhoneMask(value)) == FormatPhoneMask(value)
  {
    MaskDigits(value);
    var d := Digits(value);
    var e := d[..Min(|d|, 11)];
    if |d| > 11 {
      assert e[..2] == d[..2] && e[2..7] == d[2..7] && e[7..] == d[7..11];
    } else {
      assert e == d;
    }
  }

  /** The message shared for an item. */
  function Message(item: GalleryItem): string
  {
    "\U{1F3E0} *" + item.project + "*\n\U{1F4CD} Ambiente: " + item.room + "\n\U{1F4DD} " + item.description
    + "\n\n\U{2705} Confira o resultado do nosso trabalho!\n\n\U{1F4F7} Antes: " + item.beforeImage
    + "\n\U{1F4F7} Depois: " + item.afterImage
  }

  /** The share dialog's link: to the typed phone's digits with Brazil's country code 55 when there are
      any, to WhatsApp's contact picker otherwise. `encode` stands for encodeURIComponent. */
  function ShareUrl(item: GalleryItem, clientPhone: string, encode: string -> string): (r: string)
    ensures Digits(clientPhone) != [] ==> r == "https://wa.me/55" + Digits(clientPhone) + "?text=" + encode(Message(item))
    ensures Digits(clientPhone) == [] ==> r == "https://wa.me/?text=" + encode(Message(item))
  {
    var phone := Digits(clientPhone);
    if phone != [] then "https://wa.me/55" + phone + "?text=" + encode(Message(item))
    else "https://wa.me/?text=" + encode(Message(item))
  }

  /** A phone typed through the mask reaches the link as at most 11 digits: the first ones typed. */
  lemma MaskedPhoneInUrl(item: GalleryItem, typed: string, encode: string -> string)
    ensures var d := Digits(typed);
            ShareUrl(item, FormatPhoneMask(typed), encode)
              == if d == [] then "https://wa.me/?text=" + encode(Message(item))
                 else "https://wa.me/55" + d[..Min(|d|, 11)] + "?text=" + encode(Message(item))
  {
    MaskDigits(typed);
  }

  function InRoom(room: string): GalleryItem -> bool
  {
    (item: GalleryItem) => item.room == room
  }

  /** filteredGallery */
  function FilteredGallery(gallery: seq<GalleryItem>, selectedRoom: string): (r: seq<GalleryItem>)
    ensures selectedRoom == "all" ==> r == gallery
    ensures selectedRoom != "all" ==> forall x :: x in r <==> x in gallery && x.room == selectedRoom
  {
    if selectedRoom == "all" then gallery else Filter(gallery, InRoom(selectedRoom))
  }

  /** A room's selection keeps every photo of that room, as often as it appears, and in order. */
  lemma RoomFilterKeepsAll(gallery: seq<GalleryItem>, room: string)
    requires room != "all"
    ensures forall x :: multiset(FilteredGallery(gallery, room))[x] == if x.room == room then multiset(gallery)[x] else 0
  {
    FilterMultiset(gallery, InRoom(room));
  }
}
