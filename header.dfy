/**
 * The site header's state: the personal/institutional switch, the mobile
 * menu flag, and one nullable "open label" for the desktop menu and another
 * for the mobile menu, updated through the dropdowns' callbacks.
 */
module Header {
  import opened Common
  import opened Dropdown

  datatype UserType = Personal | Institutional

  /** An entry of the navigation bar; `dropdownItems` may be absent (`undefined`). */
  datatype NavItem = NavItem(caption: string, hasDropdown: bool, dropdownItems: Option<seq<string>>)

  const NavigationItems: seq<NavItem> := [
    NavItem("Trading", true, Some(["Forex Trading", "Stock Trading", "Cryptocurrency", "Commodities", "Indices", "CFDs"])),
    NavItem("Discover", true, Some(["Market Analysis", "Trading Guides", "Webinars", "Educational Resources", "Market News", "Economic Calendar"])),
    NavItem("Promotions", true, Some(["Welcome Bonus", "Referral Program", "Trading Contests", "Special Offers", "Loyalty Rewards"])),
    NavItem("Company", true, Some(["About Us", "Our Team", "Careers", "Press Releases", "Partnerships", "Contact Us"]))
  ]

  /** `item.hasDropdown && item.dropdownItems`: any array, even an empty one, is truthy. */
  predicate RendersDropdown(item: NavItem)
  {
    item.hasDropdown && item.dropdownItems.Some?
  }

  /** The labels that render a dropdown. */
  predicate IsDropdownLabel(name: string)
  {
    exists i :: 0 <= i < |NavigationItems| && NavigationItems[i].caption == name && RendersDropdown(NavigationItems[i])
  }

  /** `isOpen={open === item.label}`. */
  predicate IsOpen(open: Option<string>, name: string)
  {
    open == Some(name)
  }

  /** The owner's callbacks: `onOpen` stores the label, `onClose` clears the slot. */
  function Apply(open: Option<string>, name: string, callback: Callback): (r: Option<string>)
    ensures callback == OnOpen ==> IsOpen(r, name)
    ensures callback == OnClose ==> r == None
  {
    match callback
    case OnOpen => Some(name)
    case OnClose => None
  }

  /** One pointer event on the dropdown of `name`, as its owner sees it. */
  function Dispatch(open: Option<string>, name: string, variant: Variant, event: PointerEvent): Option<string>
  {
    match Handler(variant, IsOpen(open, name), event)
    case None => open
    case Some(callback) => Apply(open, name, callback)
  }

  /** Hovering a desktop dropdown opens it, whichever one was open before. */
  lemma DesktopEnterOpens(open: Option<string>, name: string)
    ensures Dispatch(open, name, Desktop, MouseEnter) == Some(name)
  {
  }

  /** Leaving any desktop dropdown clears the slot, even when another label is the open one. */
  lemma DesktopLeaveClosesAll(open: Option<string>, name: string)
    ensures Dispatch(open, name, Desktop, MouseLeave) == None
  {
  }

  /** A click on a mobile dropdown toggles it between open and closed. */
  lemma MobileClickToggles(open: Option<string>, name: string)
    ensures Dispatch(open, name, Mobile, Click) == if IsOpen(open, name) then None else Some(name)
    ensures IsOpen(Dispatch(open, name, Mobile, Click), name) == !IsOpen(open, name)
  {
  }

  /** After any event at most one label is open, and an opened label is the one the event was on. */
  lemma AtMostOneOpen(open: Option<string>, name: string, variant: Variant, event: PointerEvent, a: string, b: string)
    requires IsOpen(Dispatch(open, name, variant, event), a) && IsOpen(Dispatch(open, name, variant, event), b)
    // The first clause holds by the slot's type alone: one `Option` holds at most one label.
    ensures a == b
    ensures a == name || IsOpen(open, a)
  {
  }

  /** Events that call no callback leave the slot as it was. */
  lemma IgnoredEventsKeepState(open: Option<string>, name: string)
    ensures Dispatch(open, name, Desktop, Click) == open
    ensures Dispatch(open, name, Mobile, MouseEnter) == open
    ensures Dispatch(open, name, Mobile, MouseLeave) == open
  {
  }

  /** Clicking a mobile dropdown twice restores the slot when it held that label or nothing. */
  lemma MobileDoubleClickRestores(open: Option<string>, name: string)
    requires open == None || open == Some(name)
    ensures Dispatch(Dispatch(open, name, Mobile, Click), name, Mobile, Click) == open
  {
  }

  lemma ShippedLabels()
    ensures IsDropdownLabel("Trading") && IsDropdownLabel("Discover")
    ensures IsDropdownLabel("Promotions") && IsDropdownLabel("Company")
  {
    assert NavigationItems[0].caption == "Trading";
    assert NavigationItems[1].caption == "Discover";
    assert NavigationItems[2].caption == "Promotions";
    assert NavigationItems[3].caption == "Company";
  }

  class HeaderState {
    var userType: UserType
    var isMobileMenuOpen: bool
    var openDropdown: Option<string>
    var openMobileDropdown: Option<string>

    /** Each slot is empty or holds a label that renders a dropdown. */
    ghost predicate Valid()
      reads this
    {
      (openDropdown == None || IsDropdownLabel(openDropdown.value))
      && (openMobileDropdown == None || IsDropdownLabel(openMobileDropdown.value))
    }

    /** First render: the context's `'personal'`, the menu closed, nothing open. */
    constructor ()
      ensures Valid()
      ensures userType == Personal && !isMobileMenuOpen
      ensures openDropdown == None && openMobileDropdown == None
    {
      userType := Personal;
      isMobileMenuOpen := false;
      openDropdown := None;
      openMobileDropdown := None;
    }

    /** The Personal and Institutional buttons. */
    method SetUserType(t: UserType)
      modifies this
      ensures userType == t
      ensures isMobileMenuOpen == old(isMobileMenuOpen)
      ensures openDropdown == old(openDropdown) && openMobileDropdown == old(openMobileDropdown)
    {
      userType := t;
    }

    /** The menu button: negates the flag and nothing else; the mobile slot survives closing the menu. */
    method ToggleMobileMenu()
      modifies this
      ensures isMobileMenuOpen == !old(isMobileMenuOpen)
      ensures userType == old(userType)
      ensures openDropdown == old(openDropdown) && openMobileDropdown == old(openMobileDropdown)
    {
      isMobileMenuOpen := !isMobileMenuOpen;
    }

    /** An event on the desktop dropdown of `name`. */
    method DesktopEvent(name: string, event: PointerEvent)
      requires Valid() && IsDropdownLabel(name)
      modifies this
      ensures Valid()
      ensures openDropdown == Dispatch(old(openDropdown), name, Desktop, event)
      ensures openMobileDropdown == old(openMobileDropdown)
      ensures userType == old(userType) && isMobileMenuOpen == old(isMobileMenuOpen)
    {
      openDropdown := Dispatch(openDropdown, name, Desktop, event);
    }

    /** An event on the mobile dropdown of `name`, rendered only while the mobile menu is open. */
    method MobileEvent(name: string, event: PointerEvent)
      requires Valid() && IsDropdownLabel(name) && isMobileMenuOpen
      modifies this
      ensures Valid()
      ensures openMobileDropdown == Dispatch(old(openMobileDropdown), name, Mobile, event)
      ensures openDropdown == old(openDropdown)
      ensures userType == old(userType) && isMobileMenuOpen == old(isMobileMenuOpen)
    {
      openMobileDropdown := Dispatch(openMobileDropdown, name, Mobile, event);
    }

    /** The items the desktop dropdown of `item` lists now. */
    function DesktopItems(item: NavItem): (r: seq<string>)
      requires RendersDropdown(item)
      reads this
      ensures IsOpen(openDropdown, item.caption) ==> r == item.dropdownItems.value
      ensures !IsOpen(openDropdown, item.caption) ==> r == []
    {
      VisibleItems(item.dropdownItems.value, IsOpen(openDropdown, item.caption))
    }
  }
}
