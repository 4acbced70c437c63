/**
 * The site's contact data and work items (constants.tsx), shared by the components that
 * display them.
 */
module Constants {

  /** `CONTACTS.phone`. */
  function ShopPhone(): string { "+351 912 345 678" }

  /** `CONTACTS.whatsapp`. */
  const ShopWhatsApp: string := "351912345678"

  /** The ids of `WORK_ITEMS`, in display order. */
  const WorkItemIds: seq<nat> := [1, 2, 3, 4]
}
