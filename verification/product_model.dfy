/** A product record: the six fields the product routes read and write. The
    product schema itself is not part of this model, so no field is required. */
module ProductModel {
  import opened Base

  datatype Product = Product(title: Option<string>, description: Option<string>,
                             category: Option<string>, price: Option<int>,
                             images: Option<seq<string>>, stock: Option<int>)
}
