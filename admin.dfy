/** The admin dashboard's state and its handlers.
 *
 * Each handler is one method that leaves the state as it is once the
 * handler's request has been answered; the network reply is a parameter, and
 * the request the handler sends (if any) is returned so that the paths that
 * send nothing can say so. The list itself is updated only through the
 * transforms of module Collection, and only after an ok reply.
 */
module Admin {
  import opened Catalog
  import opened Remote
  import opened Collection
  import opened Display

  const LoadError := "Failed to load products. Please try again later."
  const RequiredError := "Please fill in all required fields"
  const AddError := "Failed to add product. Please try again."
  const UpdateError := "Failed to update product. Please try again."
  const DeleteError := "Failed to delete product. Please try again."

  class AdminPage {
    var products: seq<Product>
    var loading: bool
    var error: Option<string>

    var newProduct: ProductForm

    var showEditModal: bool
    var editingProduct: Option<Product>
    var editFormData: ProductForm

    var submitting: bool
    var submitSuccess: bool
    var submitError: Option<string>

    /** The state the page is created in, before its mount fetch. */
    constructor ()
      ensures products == [] && loading && error == None
      ensures newProduct == EmptyForm
      ensures !showEditModal && editingProduct == None && editFormData == EmptyForm
      ensures !submitting && !submitSuccess && submitError == None
    {
      products := [];
      loading := true;
      error := None;
      newProduct := EmptyForm;
      showEditModal := false;
      editingProduct := None;
      editFormData := EmptyForm;
      submitting := false;
      submitSuccess := false;
      submitError := None;
    }

    /** The body of the product tab: spinner, then error, then the table. */
    function View(): (s: Screen<seq<Product>>)
      reads this
      ensures s.Spinner? <==> loading
      ensures s.ErrorText? <==> !loading && error.Some?
      ensures s.ErrorText? ==> s.message == error.value
      ensures s == Content(products) <==> !loading && error.None?
    {
      Show(loading, error, products)
    }

    /** List fetch: the payload replaces the list in received order; a failure
     *  sets the load error and keeps the list. Either way loading ends. */
    method FetchProducts(reply: Outcome<seq<Product>>)
      modifies this`products, this`loading, this`error
      ensures !loading
      ensures reply.Ok? ==> products == reply.payload && error == old(error)
      ensures reply.NotOk? ==> products == old(products) && error == Some(LoadError)
    {
      loading := true;
      match reply {
        case Ok(data) =>
          products := data;
          loading := false;
        case NotOk =>
          error := Some(LoadError);
          loading := false;
      }
    }

    /** A change in the create form. */
    method ChangeNewProduct(name: FieldName, value: string, parsed: Option<real>)
      modifies this`newProduct
      ensures newProduct == SetField(old(newProduct), name, value, parsed)
    {
      newProduct := SetField(newProduct, name, value, parsed);
    }

    /** A change in the edit form. */
    method ChangeEditForm(name: FieldName, value: string, parsed: Option<real>)
      modifies this`editFormData
      ensures editFormData == SetField(old(editFormData), name, value, parsed)
    {
      editFormData := SetField(editFormData, name, value, parsed);
    }

    /** Submit of the create form. A form missing a required field sets the
     *  validation message and sends nothing. Otherwise the form is posted;
     *  on success the product, with `id` as its id, is appended, the form is
     *  reset and the success flag raised; on failure only the error message
     *  is set. The submitting flag ends false on both. */
    method SubmitNewProduct(id: int, reply: Outcome<()>) returns (sent: Option<Request>)
      modifies this`products, this`newProduct, this`submitting, this`submitSuccess, this`submitError
      ensures MissingRequired(old(newProduct)) ==>
        && sent == None
        && submitError == Some(RequiredError)
        && products == old(products) && newProduct == old(newProduct)
        && submitting == old(submitting) && submitSuccess == old(submitSuccess)
      ensures !MissingRequired(old(newProduct)) ==>
        sent == Some(CreateProduct(old(newProduct))) && !submitting
      ensures !MissingRequired(old(newProduct)) && reply.Ok? ==>
        && products == AppendCreated(old(products), old(newProduct), id)
        && newProduct == EmptyForm
        && submitSuccess && submitError == None
      ensures !MissingRequired(old(newProduct)) && reply.NotOk? ==>
        && products == old(products) && newProduct == old(newProduct)
        && submitSuccess == old(submitSuccess) && submitError == Some(AddError)
    {
      if MissingRequired(newProduct) {
        submitError := Some(RequiredError);
        return None;
      }
      submitting := true;
      submitError := None;
      sent := Some(CreateProduct(newProduct));
      match reply {
        case Ok(_) =>
          products := AppendCreated(products, newProduct, id);
          newProduct := EmptyForm;
          submitSuccess := true;
        case NotOk =>
          submitError := Some(AddError);
      }
      submitting := false;
    }

    /** The edit button of a row: remember the product, copy its five form
     *  fields into the edit form and open the modal. */
    method EditClick(product: Product)
      modifies this`editingProduct, this`editFormData, this`showEditModal
      ensures editingProduct == Some(product)
      ensures editFormData == FormOf(product)
      ensures showEditModal
    {
      editingProduct := Some(product);
      editFormData := FormOf(product);
      showEditModal := true;
    }

    /** Cancel, or the modal's close button: hide the modal. The product being
     *  edited and the edit form are kept. */
    method CloseEditModal()
      modifies this`showEditModal
      ensures !showEditModal
    {
      showEditModal := false;
    }

    /** Save in the edit modal. Without a product being edited nothing
     *  happens. Otherwise the edit form is sent, without any required-field
     *  check; on success every product with the edited id gets the form's
     *  fields, the modal closes and the success flag is raised; on failure
     *  only the error message is set. The submitting flag ends false on both. */
    method SubmitEdit(reply: Outcome<()>) returns (sent: Option<Request>)
      modifies this`products, this`showEditModal, this`submitting, this`submitSuccess, this`submitError
      ensures editingProduct.None? ==>
        && sent == None && products == old(products) && showEditModal == old(showEditModal)
        && submitting == old(submitting) && submitSuccess == old(submitSuccess)
        && submitError == old(submitError)
      ensures editingProduct.Some? ==>
        sent == Some(ReplaceProduct(editingProduct.value.id, editFormData)) && !submitting
      ensures editingProduct.Some? && reply.Ok? ==>
        && products == MergeById(old(products), editingProduct.value.id, editFormData)
        && !showEditModal && submitSuccess && submitError == None
      ensures editingProduct.Some? && reply.NotOk? ==>
        && products == old(products) && showEditModal == old(showEditModal)
        && submitSuccess == old(submitSuccess) && submitError == Some(UpdateError)
    {
      if editingProduct.None? {
        return None;
      }
      var target := editingProduct.value;
      submitting := true;
      submitError := None;
      sent := Some(ReplaceProduct(target.id, editFormData));
      match reply {
        case Ok(_) =>
          products := MergeById(products, target.id, editFormData);
          showEditModal := false;
          submitSuccess := true;
        case NotOk =>
          submitError := Some(UpdateError);
      }
      submitting := false;
    }

    /** The delete button of a row. Declining the confirmation does nothing.
     *  Otherwise the delete is sent; on success every product with that id is
     *  removed and the success flag raised (an earlier error message is not
     *  cleared); on failure only the error message is set. The submitting
     *  flag is never touched. */
    method DeleteClick(productId: int, confirmed: bool, reply: Outcome<()>) returns (sent: Option<Request>)
      modifies this`products, this`submitSuccess, this`submitError
      ensures !confirmed ==>
        && sent == None && products == old(products)
        && submitSuccess == old(submitSuccess) && submitError == old(submitError)
      ensures confirmed ==> sent == Some(DeleteProduct(productId))
      ensures confirmed && reply.Ok? ==>
        && products == RemoveById(old(products), productId)
        && submitSuccess && submitError == old(submitError)
      ensures confirmed && reply.NotOk? ==>
        && products == old(products)
        && submitSuccess == old(submitSuccess) && submitError == Some(DeleteError)
    {
      if !confirmed {
        return None;
      }
      sent := Some(DeleteProduct(productId));
      match reply {
        case Ok(_) =>
          products := RemoveById(products, productId);
          submitSuccess := true;
        case NotOk =>
          submitError := Some(DeleteError);
      }
    }
  }

  /** Mounting the page: create it and run the list fetch once. The product
   *  tab then shows the table of the payload, in received order, or the load
   *  error with an empty list. */
  method Mount(reply: Outcome<seq<Product>>) returns (page: AdminPage)
    ensures !page.loading
    ensures reply.Ok? ==> page.products == reply.payload && page.View() == Content(reply.payload)
    ensures reply.NotOk? ==> page.products == [] && page.View() == ErrorText(LoadError)
    ensures page.newProduct == EmptyForm && page.editFormData == EmptyForm
    ensures page.editingProduct == None && !page.showEditModal
    ensures !page.submitting && !page.submitSuccess && page.submitError == None
  {
    page := new AdminPage();
    page.FetchProducts(reply);
  }
}
