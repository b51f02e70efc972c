/** The address fields the shipping and VAT code compares. */
module Addresses {
  datatype Address = Address(street1: string, city: string, postalCode: string, country: string)
}
