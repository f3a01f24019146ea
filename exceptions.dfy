/**
 * The exceptions the backend services throw: the HTTP exception class and the
 * message it carries, one constructor per message text in the source.
 */
module Exceptions {

  datatype Message =
    | OrderNotFound(orderId: int)                   // "Pedido com ID … não encontrado"
    | ProductNotFound(productId: int)               // "Produto com ID … não encontrado"
    | InsufficientStock(nome: string, disponivel: int) // "Estoque insuficiente para o produto …. Disponível: …"
    | ProductNotFoundDuringStockUpdate(productId: int) // "… não encontrado durante a atualização do estoque"
    | UserNotFound(userId: int)                     // "Usuário com ID … não encontrado"
    | EmailNotFound(email: string)                  // "Usuário com email … não encontrado"
    | EmailInUse                                    // "Este email já está em uso"
    | InvalidCredentials                            // "Credenciais inválidas"

  datatype Exception =
    | BadRequest(message: Message)
    | NotFound(message: Message)
    | Conflict(message: Message)
    | Unauthorized(message: Message)
}
