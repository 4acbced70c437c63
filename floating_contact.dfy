/**
 * The floating contact button (components/FloatingContact.tsx): a button that opens and
 * closes a menu of two links, a WhatsApp chat link and a `tel:` link whose number has
 * every whitespace character removed.
 */
module FloatingContact {

  import opened Constants

  /**
   * A character matched by the regular-expression class `\s`: ECMAScript's WhiteSpace
   * (tab, vertical tab, form feed, space, no-break space, the byte order mark and the
   * Unicode space separators) and LineTerminator (line feed, carriage return, line and
   * paragraph separators).
   */
  predicate IsWhitespace(c: char)
  {
    || c == '\t' || c == '\n' || c == '\U{000B}' || c == '\U{000C}' || c == '\r' || c == ' '
    || c == '\U{00A0}' || c == '\U{1680}' || ('\U{2000}' <= c <= '\U{200A}')
    || c == '\U{2028}' || c == '\U{2029}' || c == '\U{202F}' || c == '\U{205F}'
    || c == '\U{3000}' || c == '\U{FEFF}'
  }

  predicate NoWhitespace(s: string)
  {
    forall k :: 0 <= k < |s| ==> !IsWhitespace(s[k])
  }

  /** `s.replace(/\s/g, '')`. */
  function StripWhitespace(s: string): string
  {
    if s == [] then []
    else (if IsWhitespace(s[0]) then [] else [s[0]]) + StripWhitespace(s[1..])
  }

  /** No whitespace is left, and nothing is added. */
  lemma {:induction false} StripIsClean(s: string)
    ensures NoWhitespace(StripWhitespace(s))
    ensures |StripWhitespace(s)| <= |s|
  {
    if s != [] {
      StripIsClean(s[1..]);
    }
  }

  /** Stripping distributes over concatenation, so it keeps the remaining characters in their order. */
  lemma {:induction false} StripAppend(a: string, b: string)
    ensures StripWhitespace(a + b) == StripWhitespace(a) + StripWhitespace(b)
  {
    if a == [] {
      assert a + b == b;
    } else {
      assert (a + b)[0] == a[0];
      assert (a + b)[1..] == a[1..] + b;
      StripAppend(a[1..], b);
    }
  }

  /** A single character survives exactly when it is not whitespace. */
  lemma StripOne(c: char)
    ensures StripWhitespace([c]) == if IsWhitespace(c) then [] else [c]
  {
    assert [c][1..] == [];
  }

  /** A string without whitespace is left as it is; in particular stripping twice is stripping once. */
  lemma {:induction false} StripKeepsClean(s: string)
    requires NoWhitespace(s)
    ensures StripWhitespace(s) == s
  {
    if s != [] {
      StripKeepsClean(s[1..]);
    }
  }

  lemma StripIdempotent(s: string)
    ensures StripWhitespace(StripWhitespace(s)) == StripWhitespace(s)
  {
    StripIsClean(s);
    StripKeepsClean(StripWhitespace(s));
  }

  /** The call link's address. */
  function TelHref(phone: string): string
  {
    "tel:" + StripWhitespace(phone)
  }

  /** The call link is "tel:" followed by the number with no whitespace character left in it. */
  lemma TelHrefClean(phone: string)
    ensures |TelHref(phone)| >= 4 && TelHref(phone)[..4] == "tel:"
    ensures TelHref(phone)[4..] == StripWhitespace(phone) && NoWhitespace(TelHref(phone)[4..])
  {
    assert TelHref(phone)[4..] == StripWhitespace(phone);
    StripIsClean(phone);
  }

  /** The chat link's address. */
  function WhatsAppHref(number: string): (href: string)
    ensures |href| == 14 + |number| && href[..14] == "https://wa.me/" && href[14..] == number
  {
    "https://wa.me/" + number
  }

  /**
   * A number written as four groups without whitespace, separated by single whitespace
   * characters, strips to its groups put together.
   */
  lemma StripGroups(g1: string, g2: string, g3: string, g4: string, c1: char, c2: char, c3: char)
    requires NoWhitespace(g1) && NoWhitespace(g2) && NoWhitespace(g3) && NoWhitespace(g4)
    requires IsWhitespace(c1) && IsWhitespace(c2) && IsWhitespace(c3)
    ensures StripWhitespace(g1 + ([c1] + (g2 + ([c2] + (g3 + ([c3] + g4)))))) == g1 + (g2 + (g3 + g4))
  {
    var t3 := [c3] + g4;
    assert StripWhitespace(t3) == g4 by {
      StripAppend([c3], g4);
      StripOne(c3);
      StripKeepsClean(g4);
    }
    var u3 := g3 + t3;
    assert StripWhitespace(u3) == g3 + g4 by {
      StripAppend(g3, t3);
      StripKeepsClean(g3);
    }
    var t2 := [c2] + u3;
    assert StripWhitespace(t2) == g3 + g4 by {
      StripAppend([c2], u3);
      StripOne(c2);
    }
    var u2 := g2 + t2;
    assert StripWhitespace(u2) == g2 + (g3 + g4) by {
      StripAppend(g2, t2);
      StripKeepsClean(g2);
    }
    var t1 := [c1] + u2;
    assert StripWhitespace(t1) == g2 + (g3 + g4) by {
      StripAppend([c1], u2);
      StripOne(c1);
    }
    assert StripWhitespace(g1 + t1) == g1 + (g2 + (g3 + g4)) by {
      StripAppend(g1, t1);
      StripKeepsClean(g1);
    }
  }

  /** The shop's number is four digit groups separated by spaces. */
  lemma ShopPhoneLayout()
    ensures ShopPhone() == "+351" + ([' '] + ("912" + ([' '] + ("345" + ([' '] + "678")))))
  {
  }

  /** The shop's number keeps its prefix and its nine digits. */
  lemma ShopPhoneStripped()
    ensures StripWhitespace(ShopPhone()) == "+351" + ("912" + ("345" + "678"))
  {
    var g1, g2, g3, g4 := "+351", "912", "345", "678";
    assert ShopPhone() == g1 + ([' '] + (g2 + ([' '] + (g3 + ([' '] + g4))))) by {
      ShopPhoneLayout();
    }
    StripGroups(g1, g2, g3, g4, ' ', ' ', ' ');
  }

  /** The shop's call link. */
  lemma ShopTelLink()
    ensures TelHref(ShopPhone()) == "tel:" + ("+351" + ("912" + ("345" + "678")))
  {
    ShopPhoneStripped();
  }

  /** The shop's chat link. */
  lemma ShopWhatsAppLink()
    ensures WhatsAppHref(ShopWhatsApp) == "https://wa.me/351912345678"
  {
  }

  /** The `toggleOpen` updater. */
  function Toggled(isOpen: bool): (next: bool)
    ensures next != isOpen
  {
    !isOpen
  }

  lemma ToggleTwice(isOpen: bool)
    ensures Toggled(Toggled(isOpen)) == isOpen
  {
  }

  /** The `isOpen` state of the button. */
  class Widget {
    var isOpen: bool

    /** `useState(false)`: the menu starts closed. */
    constructor ()
      ensures !isOpen
    {
      isOpen := false;
    }

    method ToggleOpen()
      modifies this
      ensures isOpen == Toggled(old(isOpen))
    {
      isOpen := !isOpen;
    }

    /** The two contact links are rendered only while the menu is open. */
    predicate LinksShown()
      reads this
    {
      isOpen
    }
  }
}
